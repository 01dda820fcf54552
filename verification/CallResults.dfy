/**
 What one call of `pcp.Client` puts on the wire, and what it returns, in terms of the
 bytes, the server's answer and the fates of the attempts.
 */
module CallResults {
  import opened Basics
  import opened MapRules
  import opened Wire
  import opened Errors
  import opened Client
  import opened ClientProofs
  import Epoch

  // ---------------------------------------------------------------- arguments

  /** Which arguments get as far as the network, and what the others are told. */
  lemma ArgumentsAreChecked(c: ClientState, table: Table, a: MapArgs, w: World)
    ensures CheckArgs(c, a, w).None? <==>
              && 1 <= a.internalPort <= 65535 && 0 <= a.suggestedPort <= 65535 && c.localIP != NoAddr
              && a.protocol in {"udp", "UDP", "tcp", "TCP"} && w.candidate.Some?
    ensures var r := MapCall(c, table, a, w).result;
            if !(1 <= a.internalPort <= 65535) then r == Err(Base(BadInternalPort))
            else if !(0 <= a.suggestedPort <= 65535) then r == Err(Base(BadExternalPort))
            else if c.localIP == NoAddr then r == Err(Base(NoLocalIP))
            else if a.protocol !in {"udp", "UDP", "tcp", "TCP"} then r == Err(Base(BadProtocol))
            else if w.candidate.None? then r == Err(Base(NoEntropy))
            else !c.gateway ==> r == Err(Base(NoGateway))
  {
  }

  /** The protocol number and port, the stored nonce if there is one, and whole seconds of lifetime. */
  lemma ArgumentsAreAsked(c: ClientState, a: MapArgs, w: World)
    requires CheckArgs(c, a, w).None?
    ensures var d := Asked(c, a, w);
            && d.key == Key(if a.protocol in {"tcp", "TCP"} then 6 else 17, a.internalPort)
            && d.nonce == (if d.key in c.nonces then c.nonces[d.key] else w.candidate.value)
            && (a.lifetime <= 0 ==> d.lifetime == 0)
            && (0 < a.lifetime < 1_000_000_000 ==> d.lifetime == 7200)
            && (1_000_000_000 <= a.lifetime < 0x1_0000_0000 * 1_000_000_000 ==>
                  d.lifetime * 1_000_000_000 <= a.lifetime < (d.lifetime + 1) * 1_000_000_000)
  {
  }

  // ---------------------------------------------------------------- on the wire

  /** One MAP request for `d`, suggesting `port` and `ip`, byte by byte. */
  predicate AsksFor(b: seq<byte>, clientIP: Addr, d: Decoded, port: int, ip: Addr) {
    && |b| == 60 && b[0] == 2 && b[1] == 1 && b[2] == 0 && b[3] == 0
    && BigEndian4(b[4..8], d.lifetime) && b[8..24] == AddrTo16(clientIP)
    && b[24..36] == d.nonce && b[36] == d.key.proto && b[37] == 0 && b[38] == 0 && b[39] == 0
    && BigEndian2(b[40..42], d.key.port) && BigEndian2(b[42..44], port)
    && (ip != NoAddr ==> b[44..60] == AddrTo16(ip))
    && (ip == NoAddr && AddrFrom16(AddrTo16(clientIP)).V4? ==>
          b[44..60] == [0, 0, 0, 0, 0, 0, 0, 0, 0, 0, 255, 255, 0, 0, 0, 0])
    && (ip == NoAddr && !AddrFrom16(AddrTo16(clientIP)).V4? ==>
          b[44..60] == [0, 0, 0, 0, 0, 0, 0, 0, 0, 0, 0, 0, 0, 0, 0, 0])
  }

  /** `sent` grew by one request, or by none. */
  predicate SentOne(before: seq<seq<byte>>, after: seq<seq<byte>>) {
    |after| == |before| + 1 && after[..|before|] == before
  }

  /** A call that gets as far as the network asks for just what its arguments say, and once. */
  lemma MapCallAsks(c: ClientState, table: Table, a: MapArgs, w: World)
    ensures var sent := MapCall(c, table, a, w).client.sent;
            if CheckArgs(c, a, w).None? && c.gateway
            then SentOne(c.sent, sent)
                 && AsksFor(sent[|c.sent|], c.localIP, Asked(c, a, w), a.suggestedPort, a.suggestedIP)
            else sent == c.sent
  {
    if CheckArgs(c, a, w).None? && c.gateway {
      MapRequestOnTheWire(RequestFor(c, a, Asked(c, a, w)));
    }
  }

  /** An add suggests the internal port and no address. */
  lemma AddAsks(c: ClientState, table: Table, protocol: string, port: int, lifetime: int, w: World)
    ensures var a := MapArgs(protocol, port, port, NoAddr, lifetime);
            var sent := MapCall(c, table, AddArgs(protocol, port, lifetime), w).client.sent;
            if CheckArgs(c, a, w).None? && c.gateway
            then SentOne(c.sent, sent) && AsksFor(sent[|c.sent|], c.localIP, Asked(c, a, w), port, NoAddr)
            else sent == c.sent
  {
    MapCallAsks(c, table, AddArgs(protocol, port, lifetime), w);
  }

  /** A delete asks for lifetime 0 and suggests no port and no address. */
  lemma DeleteAsks(c: ClientState, table: Table, protocol: string, port: int, w: World)
    ensures var sent := DeleteCall(c, table, protocol, port, w).client.sent;
            if CanAsk(c, protocol, port) && w.candidate.Some?
            then && SentOne(c.sent, sent)
                 && var d := Asked(c, MapArgs(protocol, port, 0, NoAddr, 0), w);
                    d.lifetime == 0 && AsksFor(sent[|c.sent|], c.localIP, d, 0, NoAddr)
            else sent == c.sent
    ensures var r := MapCall(c, table, MapArgs(protocol, port, 0, NoAddr, 0), w).result;
            DeleteCall(c, table, protocol, port, w).error
            == if r.Err? then Some(Wrapped("delete mapping: ", r.error)) else None
  {
    MapCallAsks(c, table, MapArgs(protocol, port, 0, NoAddr, 0), w);
  }

  // ---------------------------------------------------------------- the result of a MAP call

  /**
   An answered call returns what the server granted, and only then; otherwise NOT_AUTHORIZED
   if the nonces differ, and else the server's own refusal. Only a grant changes what the
   client remembers of the server.
   */
  lemma MapCallAnswered(c: ClientState, table: Table, a: MapArgs, w: World, k: nat)
    requires CheckArgs(c, a, w).None? && c.gateway
    requires FirstDecided(w.attempts, 0, k) && AttemptAt(w.attempts, k).fate.Served?
    ensures var d := Asked(c, a, w);
            var ans := AttemptAt(w.attempts, k).fate.ans;
            var at := TableAt(table, Some(d), w.attempts, 0, k);
            var m := MapCall(c, table, a, w);
            && (m.result.Ok? <==> ans.refusal.None? && Matches(at, d))
            && (m.result.Ok? ==> IsGrant(m.result.value, d, ans))
            && (!Matches(at, d) ==> m.result == Err(Base(Pcp(2))))
            && (Matches(at, d) && ans.refusal.Some? ==> m.result == Err(Base(Pcp(ans.refusal.value))))
            && m.table == After(if m.result.Err? then at
                                else if d.lifetime == 0 then at - {d.key} else at[d.key := Entry(d.nonce, Ours)],
                                Some(d), AttemptAt(w.attempts, k).after)
            && (if m.result.Ok? then Remembers(c, m.client, ans, w.now) else SameMemory(c, m.client))
  {
    ServedOutcome(table, Some(Asked(c, a, w)), w.attempts, 0, k);
    CanonicalAddress([0, 0, 0, 0], Zeros(16), "");
  }

  /** Every field of the response: those echoed and those the server filled in. */
  predicate IsGrant(r: MapResponse, d: Decoded, ans: ServerAnswer) {
    && r.header.version == 2 && r.header.opcode == 129 && r.header.resultCode == 0
    && r.header.lifetime == ans.lifetime && r.header.epoch == ans.epoch
    && r.nonce == d.nonce && r.protocol == d.key.proto && r.internalPort == d.key.port
    && r.externalPort == ans.externalPort && r.externalIP == Canonical(ans.externalIP)
  }

  /** The epoch and its time, a loss if there was one, and the address unless it is all zeros. */
  predicate Remembers(c: ClientState, c': ClientState, ans: ServerAnswer, now: nat) {
    && c'.gateway == c.gateway && c'.localIP == c.localIP
    && c'.tracker.lastEpoch == ans.epoch && c'.tracker.epochTime == Some(now)
    && (c'.tracker.lost <==> c.tracker.lost || Epoch.Verdict(c.tracker, ans.epoch, now))
    && var ip := Canonical(ans.externalIP);
       c'.externalIP == if ip == V4([0, 0, 0, 0]) || ip == V6(Zeros(16), "") then c.externalIP else ip
  }

  predicate SameMemory(c: ClientState, c': ClientState) {
    c'.gateway == c.gateway && c'.localIP == c.localIP && c'.tracker == c.tracker && c'.externalIP == c.externalIP
  }

  /** Without an answer: the packet that came is rejected, the context ended, or nobody answered. */
  lemma MapCallUnanswered(c: ClientState, table: Table, a: MapArgs, w: World)
    requires CheckArgs(c, a, w).None? && c.gateway
    ensures var m := MapCall(c, table, a, w);
            && (forall k: nat :: FirstDecided(w.attempts, 0, k) && AttemptAt(w.attempts, k).fate.Noise? ==>
                  m.result == Err(Base(BadReply)) && SameMemory(c, m.client))
            && (forall k: nat :: FirstDecided(w.attempts, 0, k) && AttemptAt(w.attempts, k).fate.ContextDone? ==>
                  m.result == Err(Base(ContextEnded)) && SameMemory(c, m.client))
            && ((forall k :: 0 <= k < 4 ==> AttemptAt(w.attempts, k).fate.Unanswered?) ==>
                  m.result == Err(Base(NoAnswer)) && SameMemory(c, m.client))
  {
    FirstOutcomeCounts(table, Some(Asked(c, a, w)), w.attempts, 0);
  }

  // ---------------------------------------------------------------- announces

  /** Fails without traffic, or asks once and ends as the first decided attempt says. */
  lemma AnnounceAsks(c: ClientState, table: Table, w: World)
    ensures var m := AnnounceCall(c, table, w);
            && (c.localIP == NoAddr ==> m == Called(c, table, Err(Base(NoLocalIP))))
            && (c.localIP != NoAddr && !c.gateway ==> m == Called(c, table, Err(Base(NoGateway))))
            && (c.localIP != NoAddr && c.gateway ==>
                  && SentOne(c.sent, m.client.sent)
                  && var b := m.client.sent[|c.sent|];
                     |b| == 24 && b[0] == 2 && b[8..24] == AddrTo16(c.localIP) && forall i :: 1 <= i < 8 ==> b[i] == 0)
  {
    AnnounceRequestOnTheWire(c.localIP);
  }

  /** An answer counts if it is not a refusal. */
  lemma AnnounceAnswered(c: ClientState, table: Table, w: World, k: nat)
    requires c.localIP != NoAddr && c.gateway
    requires FirstDecided(w.attempts, 0, k) && AttemptAt(w.attempts, k).fate.Served?
    ensures var ans := AttemptAt(w.attempts, k).fate.ans;
            var m := AnnounceCall(c, table, w);
            && m.result == (if ans.refusal.None? then Ok(ans.epoch) else Err(Base(Pcp(ans.refusal.value))))
            && AnnounceChanges(c, m.client, m.result, w.now)
  {
    ServedOutcome(table, None, w.attempts, 0, k);
  }

  /** A success moves the epoch and nothing else; a failure moves nothing. */
  predicate AnnounceChanges(c: ClientState, c': ClientState, r: Result<uint32, Err>, now: nat) {
    && c'.gateway == c.gateway && c'.localIP == c.localIP && c'.externalIP == c.externalIP && c'.nonces == c.nonces
    && (r.Err? ==> c'.tracker == c.tracker)
    && (r.Ok? ==> c'.tracker.lastEpoch == r.value && c'.tracker.epochTime == Some(now)
                  && (c'.tracker.lost <==> c.tracker.lost || Epoch.Verdict(c.tracker, r.value, now)))
  }

  lemma AnnounceMemory(c: ClientState, table: Table, w: World)
    requires c.localIP != NoAddr && c.gateway
    ensures var m := AnnounceCall(c, table, w); AnnounceChanges(c, m.client, m.result, w.now)
  {
  }

  /** The other fates. An ANNOUNCE has no nonce, so any well-formed reply is believed. */
  lemma AnnounceUnanswered(c: ClientState, table: Table, w: World)
    requires c.localIP != NoAddr && c.gateway
    ensures var r := AnnounceCall(c, table, w).result;
            && (forall k: nat :: FirstDecided(w.attempts, 0, k) && AttemptAt(w.attempts, k).fate.Noise? ==>
                  NoiseResult(AttemptAt(w.attempts, k).fate.bytes, r))
            && (forall k: nat :: FirstDecided(w.attempts, 0, k) && AttemptAt(w.attempts, k).fate.ContextDone? ==>
                  r == Err(Base(ContextEnded)))
            && ((forall k :: 0 <= k < 4 ==> AttemptAt(w.attempts, k).fate.Unanswered?) ==> r == Err(Base(NoAnswer)))
  {
    FirstOutcomeCounts(table, None, w.attempts, 0);
    var o := Travel(table, None, w.attempts, 0).outcome;
    if o.Heard? {
      NoiseIsParsed(c, table, w);
    }
  }

  lemma NoiseIsParsed(c: ClientState, table: Table, w: World)
    requires c.localIP != NoAddr && c.gateway && Travel(table, None, w.attempts, 0).outcome.Heard?
    ensures NoiseResult(Travel(table, None, w.attempts, 0).outcome.noise, AnnounceCall(c, table, w).result)
  {
    ParsedFields(Travel(table, None, w.attempts, 0).outcome.noise);
  }

  predicate NoiseResult(bytes: seq<byte>, r: Result<uint32, Err>) {
    if |bytes| < 24 || bytes[0] != 2 || bytes[1] < 128 then r == Err(Base(BadReply))
    else if bytes[3] != 0 then r == Err(Base(Pcp(bytes[3])))
    else r.Ok? && BigEndian4(bytes[8..12], r.value)
  }

  // ---------------------------------------------------------------- who was reached

  function FirstFate(attempts: seq<Attempt>, i: nat): Fate
    decreases MAX_RETRIES - i
  {
    var f := AttemptAt(attempts, i).fate;
    if !f.Unanswered? || i + 1 >= MAX_RETRIES then f else FirstFate(attempts, i + 1)
  }

  lemma {:induction false} FirstFateDecides(attempts: seq<Attempt>, i: nat)
    requires i < MAX_RETRIES
    ensures forall k: nat :: FirstDecided(attempts, i, k) ==> FirstFate(attempts, i) == AttemptAt(attempts, k).fate
    ensures FirstFate(attempts, i).Unanswered?
            <==> forall k :: i <= k < MAX_RETRIES ==> AttemptAt(attempts, k).fate.Unanswered?
    decreases MAX_RETRIES - i
  {
    if AttemptAt(attempts, i).fate.Unanswered? {
      assert forall k: nat :: FirstDecided(attempts, i, k) ==> k > i && FirstDecided(attempts, i + 1, k);
      if i + 1 < MAX_RETRIES {
        FirstFateDecides(attempts, i + 1);
      }
    } else {
      assert forall k: nat :: FirstDecided(attempts, i, k) ==> k == i;
    }
  }

  /** The epoch an announce with this fate learns. */
  function EpochOf(f: Fate): Option<uint32> {
    match f
    case Served(ans) => if ans.refusal.None? then Some(ans.epoch) else None
    case Noise(b) => if |b| >= 24 && b[0] == 2 && b[1] >= 128 && b[3] == 0 then Some(FromBe32(b[8..12])) else None
    case _ => None
  }

  /** What the world lets an announce of this client learn. */
  function Reached(c: ClientState, w: World): Option<uint32> {
    if c.localIP == NoAddr || !c.gateway then None else EpochOf(FirstFate(w.attempts, 0))
  }

  lemma AnnounceReaches(c: ClientState, table: Table, w: World)
    ensures var r := AnnounceCall(c, table, w).result;
            (r.Ok? <==> Reached(c, w).Some?) && (r.Ok? ==> r.value == Reached(c, w).value)
  {
    AnnounceAsks(c, table, w);
    if c.localIP != NoAddr && c.gateway {
      FirstFateDecides(w.attempts, 0);
      AnnounceUnanswered(c, table, w);
      var o := Travel(table, None, w.attempts, 0).outcome;
      if o != Failed(NoAnswer) {
        var k := DecidingAttempt(table, None, w.attempts, 0);
        var f := AttemptAt(w.attempts, k).fate;
        assert FirstFate(w.attempts, 0) == f;
        if f.Served? {
          AnnounceAnswered(c, table, w, k);
        } else if f.Noise? && |f.bytes| >= 24 {
          IntegersAreBigEndian(0, 0, [0, 0], f.bytes[8..12]);
        }
      } else {
        FirstOutcomeCounts(table, None, w.attempts, 0);
      }
    }
  }

  // ---------------------------------------------------------------- the external address

  /**
   The cached address without any traffic; otherwise the one granted with a UDP mapping of
   one second, which is then deleted, whatever comes of that.
   */
  lemma ExternalAddressIs(c: ClientState, table: Table, clock: nat, create: World, remove: World)
    ensures var e := ExternalCall(c, table, clock, create, remove);
            var port := EphemeralPort(clock);
            var m := MapCall(c, table, MapArgs("udp", port, port, NoAddr, 1_000_000_000), create);
            && 49152 <= port < 65535 && (clock % 65536 - (port - 49152)) % 16383 == 0
            && (c.externalIP != NoAddr ==> e == Called(c, table, Ok(c.externalIP)))
            && (c.externalIP == NoAddr && m.result.Err? ==>
                  e == Called(m.client, m.table, Err(Wrapped("create temporary mapping: ", m.result.error))))
            && (c.externalIP == NoAddr && m.result.Ok? ==>
                  var d := MapCall(m.client, m.table, MapArgs("udp", port, 0, NoAddr, 0), remove);
                  e == Called(d.client, d.table, Ok(m.result.value.externalIP)))
  {
  }
}
