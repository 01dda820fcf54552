/**
 The PCP packet formats: what `pcp/protocol.go` writes, what it reads back, and how
 the server of section 11 of RFC 6887 sees the same bytes.
 */
module Wire {
  import opened Basics

  const VERSION: byte := 2
  const OP_ANNOUNCE: byte := 0
  const OP_MAP: byte := 1
  const OP_REPLY: byte := 0x80
  const HEADER_SIZE := 24
  const MAP_SIZE := 60

  // ---------------------------------------------------------------- big-endian integers

  function Be16(x: uint16): (s: seq<byte>)
    ensures |s| == 2
  {
    [x / 0x100, x % 0x100]
  }

  function Be32(x: uint32): (s: seq<byte>)
    ensures |s| == 4
  {
    Be16(x / 0x1_0000) + Be16(x % 0x1_0000)
  }

  function FromBe16(s: seq<byte>): uint16
    requires |s| == 2
  {
    (s[0] as int) * 0x100 + s[1]
  }

  function FromBe32(s: seq<byte>): uint32
    requires |s| == 4
  {
    (FromBe16(s[..2]) as int) * 0x1_0000 + FromBe16(s[2..])
  }

  /** The most significant byte comes first. */
  predicate BigEndian2(s: seq<byte>, x: int) {
    |s| == 2 && x == 256 * (s[0] as int) + s[1]
  }

  predicate BigEndian4(s: seq<byte>, x: int) {
    |s| == 4 && x == 16777216 * (s[0] as int) + 65536 * (s[1] as int) + 256 * (s[2] as int) + s[3]
  }

  lemma IntegersAreBigEndian(x: uint16, y: uint32, s: seq<byte>, t: seq<byte>)
    requires |s| == 2 && |t| == 4
    ensures BigEndian2(Be16(x), x) && BigEndian4(Be32(y), y)
    ensures BigEndian2(s, FromBe16(s)) && BigEndian4(t, FromBe32(t))
  {
    var hi, lo := y / 0x1_0000, y % 0x1_0000;
    assert y == 65536 * hi + lo;
    assert hi == 256 * (hi / 0x100) + hi % 0x100 && lo == 256 * (lo / 0x100) + lo % 0x100;
  }

  lemma Be32RoundTrip(x: uint32)
    ensures FromBe32(Be32(x)) == x
  {
    assert Be32(x)[..2] == Be16(x / 0x1_0000) && Be32(x)[2..] == Be16(x % 0x1_0000);
  }

  lemma FromBe16Injective(s: seq<byte>, t: seq<byte>)
    requires |s| == |t| == 2 && FromBe16(s) == FromBe16(t)
    ensures s == t
  {
    assert s[0] == t[0] && s[1] == t[1];
  }

  lemma FromBe32Injective(s: seq<byte>, t: seq<byte>)
    requires |s| == |t| == 4
    ensures FromBe32(s) == FromBe32(t) ==> s == t
  {
    if FromBe32(s) == FromBe32(t) {
      SameDigits(FromBe16(s[..2]), FromBe16(s[2..]), FromBe16(t[..2]), FromBe16(t[2..]));
      FromBe16Injective(s[..2], t[..2]);
      FromBe16Injective(s[2..], t[2..]);
      assert s == s[..2] + s[2..] && t == t[..2] + t[2..];
    }
  }

  lemma SameDigits(a: uint16, b: uint16, c: uint16, d: uint16)
    requires (a as int) * 0x1_0000 + b == (c as int) * 0x1_0000 + d
    ensures a == c && b == d
  {
  }

  // ---------------------------------------------------------------- addresses

  type Bytes4 = s: seq<byte> | |s| == 4 witness [0, 0, 0, 0]
  type Bytes16 = s: seq<byte> | |s| == 16 witness [0, 0, 0, 0, 0, 0, 0, 0, 0, 0, 0, 0, 0, 0, 0, 0]

  /** `netip.Addr`: the zero value, an IPv4 address, or an IPv6 address with a zone. */
  datatype Addr = NoAddr | V4(o4: Bytes4) | V6(o16: Bytes16, zone: string)

  const V4_IN_V6: seq<byte> := [0, 0, 0, 0, 0, 0, 0, 0, 0, 0, 0xff, 0xff]
  const UNSPECIFIED4 := V4([0, 0, 0, 0])
  const UNSPECIFIED6 := V6(Zeros(16), "")

  predicate Is4In6(a: Addr) {
    a.V6? && a.o16[..12] == V4_IN_V6
  }

  function Unmap(a: Addr): Addr {
    if Is4In6(a) then V4(a.o16[12..]) else a
  }

  function AddrTo16(a: Addr): Bytes16 {
    match a
    case NoAddr => Zeros(16)
    case V4(o4) => V4_IN_V6 + o4
    case V6(o16, _) => o16
  }

  function AddrFrom16(b: Bytes16): Addr {
    Unmap(V6(b, ""))
  }

  /** The one address, among all that share a wire form, that a reader gets back. */
  function Canonical(a: Addr): Addr {
    match a
    case NoAddr => UNSPECIFIED6
    case V4(_) => a
    case V6(o16, _) => Unmap(V6(o16, ""))
  }

  /** An IPv4 address travels as ::ffff:a.b.c.d, no address as all zeros. */
  lemma AddressBytes(a: Addr)
    ensures a.NoAddr? ==> AddrTo16(a) == [0, 0, 0, 0, 0, 0, 0, 0, 0, 0, 0, 0, 0, 0, 0, 0]
    ensures a.V4? ==> AddrTo16(a) == [0, 0, 0, 0, 0, 0, 0, 0, 0, 0, 255, 255, a.o4[0], a.o4[1], a.o4[2], a.o4[3]]
    ensures a.V6? ==> AddrTo16(a) == a.o16
  {
  }

  /** What is read back: IPv4 out of its mapped form, everything else as it is. */
  lemma CanonicalAddress(o4: Bytes4, o16: Bytes16, zone: string)
    ensures Canonical(V4(o4)) == V4(o4)
    ensures Canonical(V6([0, 0, 0, 0, 0, 0, 0, 0, 0, 0, 255, 255] + o4, zone)) == V4(o4)
    ensures o16[..12] != [0, 0, 0, 0, 0, 0, 0, 0, 0, 0, 255, 255] ==> Canonical(V6(o16, zone)) == V6(o16, "")
    ensures Canonical(NoAddr) == V6([0, 0, 0, 0, 0, 0, 0, 0, 0, 0, 0, 0, 0, 0, 0, 0], "")
  {
    var mapped := V4_IN_V6 + o4;
    assert mapped[..12] == V4_IN_V6 && mapped[12..] == o4;
    assert Zeros(16) == [0, 0, 0, 0, 0, 0, 0, 0, 0, 0, 0, 0, 0, 0, 0, 0];
  }

  /** Reading an address back unmaps it and drops its zone, and nothing else. */
  lemma AddrRoundTrip(a: Addr)
    ensures AddrFrom16(AddrTo16(a)) == Canonical(a)
    ensures a.V4? || (a.V6? && a.zone == "" && !Is4In6(a)) ==> AddrFrom16(AddrTo16(a)) == a
  {
    if a.V4? {
      assert AddrTo16(a)[..12] == V4_IN_V6 && AddrTo16(a)[12..] == a.o4;
    } else if a.NoAddr? {
      assert Zeros(16)[..12][10] != V4_IN_V6[10];
    }
  }

  lemma AddrFrom16Injective(b: Bytes16, c: Bytes16)
    ensures AddrFrom16(b) == AddrFrom16(c) ==> b == c
  {
    if AddrFrom16(b) == AddrFrom16(c) {
      assert b == b[..12] + b[12..] && c == c[..12] + c[12..];
    }
  }

  /** Two addresses share a wire form exactly when they share a canonical form. */
  lemma AddrTo16Injective(a: Addr, b: Addr)
    ensures AddrTo16(a) == AddrTo16(b) <==> Canonical(a) == Canonical(b)
  {
    AddrRoundTrip(a);
    AddrRoundTrip(b);
    AddrFrom16Injective(AddrTo16(a), AddrTo16(b));
  }

  // ---------------------------------------------------------------- requests

  datatype MapRequest = MapRequest(
    clientIP: Addr, nonce: Nonce, protocol: byte, internalPort: uint16,
    suggestedPort: uint16, suggestedIP: Addr, lifetime: uint32)

  /** Section 11.1: no preference is the all-zeros address of the client's own family. */
  function SuggestedOrDefault(clientIP: Addr, suggestedIP: Addr): Addr {
    if suggestedIP != NoAddr then suggestedIP
    else if clientIP.V4? || Is4In6(clientIP) then UNSPECIFIED4
    else UNSPECIFIED6
  }

  function AnnounceRequestBytes(clientIP: Addr): (r: seq<byte>)
    ensures |r| == HEADER_SIZE
  {
    [VERSION, OP_ANNOUNCE] + Zeros(6) + AddrTo16(clientIP)
  }

  function MapRequestBytes(m: MapRequest): (r: seq<byte>)
    ensures |r| == MAP_SIZE
  {
    [VERSION, OP_MAP] + Zeros(2) + Be32(m.lifetime) + AddrTo16(m.clientIP)
    + m.nonce + [m.protocol] + Zeros(3) + Be16(m.internalPort) + Be16(m.suggestedPort)
    + AddrTo16(SuggestedOrDefault(m.clientIP, m.suggestedIP))
  }

  function Laid(done: seq<byte>, gap: nat, src: seq<byte>): seq<byte> {
    if gap == 0 then done + src else done + Zeros(gap) + src
  }

  /** Writes `src` at the first still-blank place after `gap` untouched zero bytes. */
  method PutAfter(buf: array<byte>, ghost done: seq<byte>, at: nat, gap: nat, src: seq<byte>)
    requires at == |done| + gap && at + |src| <= buf.Length
    requires buf[..] == done + Zeros(buf.Length - |done|)
    modifies buf
    ensures buf[..] == Laid(done, gap, src) + Zeros(buf.Length - at - |src|)
  {
    forall i | 0 <= i < |src| {
      buf[at + i] := src[i];
    }
  }

  method BuildAnnounceRequest(clientIP: Addr) returns (req: array<byte>)
    ensures fresh(req) && req[..] == AnnounceRequestBytes(clientIP)
  {
    req := new byte[HEADER_SIZE](_ => 0);
    req[0] := VERSION;
    req[1] := OP_ANNOUNCE;
    ghost var done := [VERSION, OP_ANNOUNCE];
    PutAfter(req, done, 8, 6, AddrTo16(clientIP));
  }

  method BuildMapRequest(m: MapRequest) returns (req: array<byte>)
    ensures fresh(req) && req[..] == MapRequestBytes(m)
  {
    req := new byte[MAP_SIZE](_ => 0);
    req[0] := VERSION;
    req[1] := OP_MAP;
    ghost var done := [VERSION, OP_MAP];
    PutAfter(req, done, 4, 2, Be32(m.lifetime));
    done := Laid(done, 2, Be32(m.lifetime));
    PutAfter(req, done, 8, 0, AddrTo16(m.clientIP));
    done := Laid(done, 0, AddrTo16(m.clientIP));
    PutAfter(req, done, 24, 0, m.nonce);
    done := Laid(done, 0, m.nonce);
    PutAfter(req, done, 36, 0, [m.protocol]);
    done := Laid(done, 0, [m.protocol]);
    PutAfter(req, done, 40, 3, Be16(m.internalPort));
    done := Laid(done, 3, Be16(m.internalPort));
    PutAfter(req, done, 42, 0, Be16(m.suggestedPort));
    done := Laid(done, 0, Be16(m.suggestedPort));
    PutAfter(req, done, 44, 0, AddrTo16(SuggestedOrDefault(m.clientIP, m.suggestedIP)));
    assert MapRequestBytes(m) + Zeros(0) == MapRequestBytes(m);
  }

  /** The three things a server acts on. */
  datatype Decoded = Decoded(key: Key, nonce: Nonce, lifetime: uint32)

  predicate IsMapRequest(req: seq<byte>) {
    |req| >= MAP_SIZE && req[0] == VERSION && req[1] == OP_MAP
  }

  function DecodeMapRequest(req: seq<byte>): Decoded
    requires IsMapRequest(req)
  {
    Decoded(Key(req[36], FromBe16(req[40..42])), req[24..36], FromBe32(req[4..8]))
  }

  /** Where each field of a built request lies. */
  lemma MapRequestLayout(m: MapRequest)
    ensures var b := MapRequestBytes(m);
            && IsMapRequest(b)
            && b[4..8] == Be32(m.lifetime) && b[8..24] == AddrTo16(m.clientIP)
            && b[24..36] == m.nonce && b[36] == m.protocol
            && b[40..42] == Be16(m.internalPort) && b[42..44] == Be16(m.suggestedPort)
            && b[44..60] == AddrTo16(SuggestedOrDefault(m.clientIP, m.suggestedIP))
  {
  }

  /** Every byte of a MAP request, as sections 7.1 and 11.1 of RFC 6887 lay it out. */
  lemma MapRequestOnTheWire(m: MapRequest)
    ensures var b := MapRequestBytes(m);
            && |b| == 60 && b[0] == 2 && b[1] == 1 && b[2] == 0 && b[3] == 0
            && BigEndian4(b[4..8], m.lifetime) && b[8..24] == AddrTo16(m.clientIP)
            && b[24..36] == m.nonce && b[36] == m.protocol && b[37] == 0 && b[38] == 0 && b[39] == 0
            && BigEndian2(b[40..42], m.internalPort) && BigEndian2(b[42..44], m.suggestedPort)
    ensures var suggested := MapRequestBytes(m)[44..60];
            && (m.suggestedIP != NoAddr ==> suggested == AddrTo16(m.suggestedIP))
            && (m.suggestedIP == NoAddr && AddrFrom16(AddrTo16(m.clientIP)).V4? ==>
                  suggested == [0, 0, 0, 0, 0, 0, 0, 0, 0, 0, 255, 255, 0, 0, 0, 0])
            && (m.suggestedIP == NoAddr && !AddrFrom16(AddrTo16(m.clientIP)).V4? ==>
                  suggested == [0, 0, 0, 0, 0, 0, 0, 0, 0, 0, 0, 0, 0, 0, 0, 0])
  {
    MapRequestLayout(m);
    AddrRoundTrip(m.clientIP);
    AddressBytes(SuggestedOrDefault(m.clientIP, m.suggestedIP));
    IntegersAreBigEndian(m.internalPort, m.lifetime, Be16(m.internalPort), Be32(m.lifetime));
    IntegersAreBigEndian(m.suggestedPort, m.lifetime, Be16(m.suggestedPort), Be32(m.lifetime));
  }

  lemma AnnounceRequestOnTheWire(clientIP: Addr)
    ensures var b := AnnounceRequestBytes(clientIP);
            && |b| == 24 && b[0] == 2 && b[8..24] == AddrTo16(clientIP)
            && forall i :: 1 <= i < 8 ==> b[i] == 0
  {
  }

  /** The server reads out of a built request what the client put in. */
  lemma DecodeBuiltRequest(m: MapRequest)
    ensures IsMapRequest(MapRequestBytes(m))
    ensures DecodeMapRequest(MapRequestBytes(m))
            == Decoded(Key(m.protocol, m.internalPort), m.nonce, m.lifetime)
  {
    MapRequestLayout(m);
    Be32RoundTrip(m.lifetime);
  }

  /** Two requests are the same bytes exactly when they ask for the same thing. */
  lemma MapRequestInjective(m: MapRequest, n: MapRequest)
    ensures MapRequestBytes(m) == MapRequestBytes(n) <==>
            && m.nonce == n.nonce && m.protocol == n.protocol && m.lifetime == n.lifetime
            && m.internalPort == n.internalPort && m.suggestedPort == n.suggestedPort
            && Canonical(m.clientIP) == Canonical(n.clientIP)
            && Canonical(SuggestedOrDefault(m.clientIP, m.suggestedIP))
               == Canonical(SuggestedOrDefault(n.clientIP, n.suggestedIP))
  {
    MapRequestLayout(m);
    MapRequestLayout(n);
    Be32RoundTrip(m.lifetime);
    Be32RoundTrip(n.lifetime);
    AddrTo16Injective(m.clientIP, n.clientIP);
    AddrTo16Injective(SuggestedOrDefault(m.clientIP, m.suggestedIP),
                      SuggestedOrDefault(n.clientIP, n.suggestedIP));
    assert Be16(m.suggestedPort) == Be16(n.suggestedPort) ==> m.suggestedPort == n.suggestedPort;
    assert Be16(m.internalPort) == Be16(n.internalPort) ==> m.internalPort == n.internalPort;
  }

  // ---------------------------------------------------------------- replies

  datatype Response = Response(version: byte, opcode: byte, resultCode: byte, lifetime: uint32, epoch: uint32)

  datatype MapResponse = MapResponse(
    header: Response, nonce: Nonce, protocol: byte, internalPort: uint16,
    externalPort: uint16, externalIP: Addr)

  datatype ParseError = TooShort | BadVersion | NotAReply

  function ParseResponse(data: seq<byte>): Result<Response, ParseError> {
    if |data| < HEADER_SIZE then Err(TooShort)
    else if data[0] != VERSION then Err(BadVersion)
    else if data[1] < OP_REPLY then Err(NotAReply)
    else Ok(Response(data[0], data[1], data[3], FromBe32(data[4..8]), FromBe32(data[8..12])))
  }

  function ParseMapResponse(data: seq<byte>): Result<MapResponse, ParseError> {
    if |data| < MAP_SIZE then Err(TooShort)
    else
      match ParseResponse(data)
      case Err(e) => Err(e)
      case Ok(header) =>
        Ok(MapResponse(header, data[24..36], data[36], FromBe16(data[40..42]), FromBe16(data[42..44]),
                       AddrFrom16(data[44..60])))
  }

  /** What the parser takes from which byte of a reply. */
  lemma ParsedFields(data: seq<byte>)
    ensures ParseResponse(data).Ok? <==> |data| >= 24 && data[0] == 2 && data[1] >= 128
    ensures ParseMapResponse(data).Ok? <==> |data| >= 60 && data[0] == 2 && data[1] >= 128
    ensures ParseResponse(data).Ok? ==>
              var h := ParseResponse(data).value;
              && h.version == data[0] && h.opcode == data[1] && h.resultCode == data[3]
              && BigEndian4(data[4..8], h.lifetime) && BigEndian4(data[8..12], h.epoch)
    ensures ParseMapResponse(data).Ok? ==>
              var p := ParseMapResponse(data).value;
              && ParseResponse(data) == Ok(p.header) && p.nonce == data[24..36] && p.protocol == data[36]
              && BigEndian2(data[40..42], p.internalPort) && BigEndian2(data[42..44], p.externalPort)
              && p.externalIP == AddrFrom16(data[44..60])
  {
    if |data| >= 24 {
      IntegersAreBigEndian(0, 0, [0, 0], data[4..8]);
      IntegersAreBigEndian(0, 0, [0, 0], data[8..12]);
    }
    if |data| >= 60 {
      IntegersAreBigEndian(0, 0, data[40..42], [0, 0, 0, 0]);
      IntegersAreBigEndian(0, 0, data[42..44], [0, 0, 0, 0]);
    }
  }

  /** The header of section 7.2 of RFC 6887, as the server sends it. */
  function ReplyHeader(opcode: byte, resultCode: byte, lifetime: uint32, epoch: uint32): (r: seq<byte>)
    ensures |r| == HEADER_SIZE
  {
    [VERSION, opcode, 0, resultCode] + Be32(lifetime) + Be32(epoch) + Zeros(12)
  }

  function AnnounceReplyBytes(resultCode: byte, epoch: uint32): (r: seq<byte>)
    ensures |r| == HEADER_SIZE
  {
    ReplyHeader(OP_ANNOUNCE + OP_REPLY, resultCode, 0, epoch)
  }

  /** The MAP reply of section 11.1, echoing the request it answers. */
  function MapReplyBytes(d: Decoded, resultCode: byte, lifetime: uint32, epoch: uint32,
                         externalPort: uint16, externalIP: Addr): (r: seq<byte>)
    ensures |r| == MAP_SIZE
  {
    ReplyHeader(OP_MAP + OP_REPLY, resultCode, lifetime, epoch)
    + MapReplyPayload(d, externalPort, externalIP)
  }

  function MapReplyPayload(d: Decoded, externalPort: uint16, externalIP: Addr): (r: seq<byte>)
    ensures |r| == MAP_SIZE - HEADER_SIZE
  {
    d.nonce + [d.key.proto] + Zeros(3) + Be16(d.key.port) + Be16(externalPort) + AddrTo16(externalIP)
  }

  lemma ParseReplyHeader(opcode: byte, resultCode: byte, lifetime: uint32, epoch: uint32, rest: seq<byte>)
    requires opcode >= OP_REPLY
    ensures ParseResponse(ReplyHeader(opcode, resultCode, lifetime, epoch) + rest)
            == Ok(Response(VERSION, opcode, resultCode, lifetime, epoch))
  {
    var b := ReplyHeader(opcode, resultCode, lifetime, epoch) + rest;
    assert b[4..8] == Be32(lifetime) && b[8..12] == Be32(epoch);
    Be32RoundTrip(lifetime);
    Be32RoundTrip(epoch);
  }

  /** A genuine MAP reply parses back to everything the server put in it. */
  lemma ParseBuiltReply(d: Decoded, resultCode: byte, lifetime: uint32, epoch: uint32,
                        externalPort: uint16, externalIP: Addr)
    ensures ParseMapResponse(MapReplyBytes(d, resultCode, lifetime, epoch, externalPort, externalIP))
            == Ok(MapResponse(Response(VERSION, OP_MAP + OP_REPLY, resultCode, lifetime, epoch),
                              d.nonce, d.key.proto, d.key.port, externalPort, Canonical(externalIP)))
  {
    var b := MapReplyBytes(d, resultCode, lifetime, epoch, externalPort, externalIP);
    var rest := MapReplyPayload(d, externalPort, externalIP);
    ParseReplyHeader(OP_MAP + OP_REPLY, resultCode, lifetime, epoch, rest);
    MapReplyLayout(d, externalPort, externalIP, ReplyHeader(OP_MAP + OP_REPLY, resultCode, lifetime, epoch));
    AddrRoundTrip(externalIP);
  }

  lemma MapReplyLayout(d: Decoded, externalPort: uint16, externalIP: Addr, header: seq<byte>)
    requires |header| == HEADER_SIZE
    ensures var b := header + MapReplyPayload(d, externalPort, externalIP);
            && b[24..36] == d.nonce && b[36] == d.key.proto
            && b[40..42] == Be16(d.key.port) && b[42..44] == Be16(externalPort)
            && b[44..60] == AddrTo16(externalIP)
  {
  }

  lemma ParseBuiltAnnounceReply(resultCode: byte, epoch: uint32)
    ensures ParseResponse(AnnounceReplyBytes(resultCode, epoch))
            == Ok(Response(VERSION, OP_ANNOUNCE + OP_REPLY, resultCode, 0, epoch))
  {
    ParseReplyHeader(OP_ANNOUNCE + OP_REPLY, resultCode, 0, epoch, []);
    assert AnnounceReplyBytes(resultCode, epoch)
        == ReplyHeader(OP_ANNOUNCE + OP_REPLY, resultCode, 0, epoch) + [];
  }

  /** Everything the parser reads: all but the reserved bytes and any trailing options. */
  function Significant(data: seq<byte>): seq<byte>
    requires |data| >= MAP_SIZE
  {
    data[0..2] + data[3..12] + data[24..37] + data[40..60]
  }

  /**
   The parser accepts exactly the long enough version-2 replies, of any opcode, and
   two accepted replies mean the same exactly when their significant bytes agree.
   */
  lemma ParseMapResponseExact(data: seq<byte>, other: seq<byte>)
    ensures ParseMapResponse(data).Ok?
            <==> |data| >= MAP_SIZE && data[0] == VERSION && data[1] >= OP_REPLY
    ensures ParseMapResponse(data).Ok? && ParseMapResponse(other).Ok? ==>
              (ParseMapResponse(data) == ParseMapResponse(other)
               <==> Significant(data) == Significant(other))
  {
    if ParseMapResponse(data).Ok? && ParseMapResponse(other).Ok? {
      SignificantParts(data);
      SignificantParts(other);
      FromBe32Injective(data[4..8], other[4..8]);
      FromBe32Injective(data[8..12], other[8..12]);
      AddrFrom16Injective(data[44..60], other[44..60]);
      if Significant(data) == Significant(other) {
        SamePartsSameMeaning(data, other);
      }
      if ParseMapResponse(data) == ParseMapResponse(other) {
        assert data[40..42] == other[40..42] && data[42..44] == other[42..44];
        assert SignificantJoined(data) == SignificantJoined(other);
      }
    }
  }

  lemma SamePartsSameMeaning(data: seq<byte>, other: seq<byte>)
    requires ParseMapResponse(data).Ok? && ParseMapResponse(other).Ok?
    requires Significant(data) == Significant(other)
    ensures ParseMapResponse(data) == ParseMapResponse(other)
  {
    SignificantParts(data);
    SignificantParts(other);
    assert data[40..42] == other[40..42] && data[42..44] == other[42..44];
    assert data[40] == data[40..42][0] && data[41] == data[40..42][1];
    assert data[42] == data[42..44][0] && data[43] == data[42..44][1];
  }

  function SignificantJoined(data: seq<byte>): seq<byte>
    requires |data| >= MAP_SIZE
  {
    [data[0], data[1], data[3]] + data[4..8] + data[8..12] + data[24..36] + [data[36]]
    + data[40..42] + data[42..44] + data[44..60]
  }

  lemma SignificantParts(data: seq<byte>)
    requires |data| >= MAP_SIZE
    ensures Significant(data) == SignificantJoined(data)
    ensures var s := Significant(data);
            && |s| == 44 && s[0] == data[0] && s[1] == data[1] && s[2] == data[3]
            && s[3..7] == data[4..8] && s[7..11] == data[8..12] && s[11..23] == data[24..36]
            && s[23] == data[36] && s[24..26] == data[40..42] && s[26..28] == data[42..44]
            && s[28..44] == data[44..60]
  {
  }
}
