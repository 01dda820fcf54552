/** What one call of `pcp.Client` achieves, in every world. */
module ClientProofs {
  import opened Basics
  import opened MapRules
  import opened Wire
  import opened Errors
  import opened Client
  import Epoch

  // ---------------------------------------------------------------- happenings and attempts

  /** What the server goes through during an exchange leaves every mapping reachable. */
  lemma {:induction false} AfterKeepsHeld(nonces: Nonces, table: Table, about: Option<Decoded>, hs: seq<Happening>)
    requires Held(nonces, table)
    requires about.Some? ==> Bound(nonces, about.value.key, about.value.nonce, about.value.lifetime)
    ensures Held(nonces, After(table, about, hs))
    decreases |hs|
  {
    if hs != [] {
      AfterKeepsHeld(nonces, AfterOne(table, about, hs[0]), about, hs[1..]);
    }
  }

  lemma {:induction false} TravelKeepsHeld(nonces: Nonces, table: Table, about: Option<Decoded>,
                                           attempts: seq<Attempt>, i: nat)
    requires Held(nonces, table)
    requires about.Some? ==> Bound(nonces, about.value.key, about.value.nonce, about.value.lifetime)
    ensures Held(nonces, Travel(table, about, attempts, i).table)
    decreases MAX_RETRIES - i
  {
    var a := AttemptAt(attempts, i);
    var t1 := After(table, about, a.before);
    AfterKeepsHeld(nonces, table, about, a.before);
    var t2 := if a.fate.Served? then AnswerTo(t1, about, a.fate.ans.refusal).table else t1;
    AfterKeepsHeld(nonces, t2, about, a.after);
    if a.fate.Unanswered? && i + 1 < MAX_RETRIES {
      TravelKeepsHeld(nonces, After(t2, about, a.after), about, attempts, i + 1);
    }
  }

  /** Nothing that happens while a delete is in flight brings a mapping of ours back. */
  lemma {:induction false} AfterStaysClear(table: Table, d: Decoded, hs: seq<Happening>)
    requires d.lifetime == 0 && NotOurs(table, d.key)
    ensures NotOurs(After(table, Some(d), hs), d.key)
    decreases |hs|
  {
    if hs != [] {
      AfterStaysClear(AfterOne(table, Some(d), hs[0]), d, hs[1..]);
    }
  }

  lemma {:induction false} AcceptedDeleteClears(table: Table, d: Decoded, attempts: seq<Attempt>, i: nat)
    requires d.lifetime == 0
    requires var o := Travel(table, Some(d), attempts, i).outcome; o.Replied? && o.code == SUCCESS
    ensures NotOurs(Travel(table, Some(d), attempts, i).table, d.key)
    decreases MAX_RETRIES - i
  {
    var a := AttemptAt(attempts, i);
    var t1 := After(table, Some(d), a.before);
    match a.fate {
      case Served(ans) => AfterStaysClear(AnswerTo(t1, Some(d), ans.refusal).table, d, a.after);
      case Unanswered => AcceptedDeleteClears(After(t1, Some(d), a.after), d, attempts, i + 1);
      case _ =>
    }
  }

  /** The outcome a fate alone decides; what a served request is told is up to the server. */
  predicate Decides(fate: Fate, o: Outcome) {
    match fate
    case Served(ans) => o.Replied? && o.ans == ans
    case Noise(bytes) => o == Heard(bytes)
    case ContextDone => o == Failed(ContextEnded)
    case Unanswered => false
  }

  /** Attempt `k` is the first, from `i` on, that is not simply unanswered. */
  predicate FirstDecided(attempts: seq<Attempt>, i: nat, k: nat) {
    && i <= k < MAX_RETRIES && !AttemptAt(attempts, k).fate.Unanswered?
    && forall j :: i <= j < k ==> AttemptAt(attempts, j).fate.Unanswered?
  }

  /** The first of four attempts that is answered or cut short decides; without one, it fails. */
  lemma {:induction false} FirstOutcomeCounts(table: Table, about: Option<Decoded>, attempts: seq<Attempt>, i: nat)
    requires i < MAX_RETRIES
    ensures var o := Travel(table, about, attempts, i).outcome;
            && (o == Failed(NoAnswer) <==> forall j :: i <= j < MAX_RETRIES ==> AttemptAt(attempts, j).fate.Unanswered?)
            && forall k: nat :: FirstDecided(attempts, i, k) ==> Decides(AttemptAt(attempts, k).fate, o)
    decreases MAX_RETRIES - i
  {
    var a := AttemptAt(attempts, i);
    if a.fate.Unanswered? {
      assert forall k: nat :: FirstDecided(attempts, i, k) ==> k > i && FirstDecided(attempts, i + 1, k);
      if i + 1 < MAX_RETRIES {
        FirstOutcomeCounts(TryOnce(table, about, a).table, about, attempts, i + 1);
      }
    } else {
      assert forall k: nat :: FirstDecided(attempts, i, k) ==> k == i;
    }
  }

  lemma {:induction false} DecidingAttempt(table: Table, about: Option<Decoded>, attempts: seq<Attempt>, i: nat)
    returns (k: nat)
    requires i < MAX_RETRIES && Travel(table, about, attempts, i).outcome != Failed(NoAnswer)
    ensures FirstDecided(attempts, i, k)
    decreases MAX_RETRIES - i
  {
    k := i;
    if AttemptAt(attempts, i).fate.Unanswered? {
      k := DecidingAttempt(TryOnce(table, about, AttemptAt(attempts, i)).table, about, attempts, i + 1);
    }
  }

  /** The server's table when attempt `k` is served, the attempts from `i` on having gone unanswered. */
  function TableAt(table: Table, about: Option<Decoded>, attempts: seq<Attempt>, i: nat, k: nat): Table
    requires i <= k
    decreases k - i
  {
    var a := AttemptAt(attempts, i);
    var t := After(table, about, a.before);
    if i == k then t else TableAt(After(t, about, a.after), about, attempts, i + 1, k)
  }

  /** An exchange decided by a served attempt is the server's answer at that moment, and what follows it. */
  lemma {:induction false} ServedOutcome(table: Table, about: Option<Decoded>, attempts: seq<Attempt>, i: nat, k: nat)
    requires FirstDecided(attempts, i, k) && AttemptAt(attempts, k).fate.Served?
    ensures var a := AttemptAt(attempts, k);
            var answer := AnswerTo(TableAt(table, about, attempts, i, k), about, a.fate.ans.refusal);
            Travel(table, about, attempts, i)
            == Travelled(After(answer.table, about, a.after), Replied(answer.code, a.fate.ans))
    decreases k - i
  {
    if i < k {
      ServedOutcome(TryOnce(table, about, AttemptAt(attempts, i)).table, about, attempts, i + 1, k);
    }
  }

  lemma {:induction false} TableAtKeepsHeld(nonces: Nonces, table: Table, d: Decoded, attempts: seq<Attempt>,
                                            i: nat, k: nat)
    requires i <= k && Held(nonces, table) && Bound(nonces, d.key, d.nonce, d.lifetime)
    ensures Held(nonces, TableAt(table, Some(d), attempts, i, k))
    decreases k - i
  {
    var a := AttemptAt(attempts, i);
    var t := After(table, Some(d), a.before);
    AfterKeepsHeld(nonces, table, Some(d), a.before);
    if i < k {
      AfterKeepsHeld(nonces, t, Some(d), a.after);
      TableAtKeepsHeld(nonces, After(t, Some(d), a.after), d, attempts, i + 1, k);
    }
  }

  // ---------------------------------------------------------------- one MAP call

  /**
   No call strands a mapping, however it ends: afterwards the client still holds the
   nonce of every mapping of its own that the server has.
   */
  lemma MapCallKeepsHeld(c: ClientState, table: Table, a: MapArgs, w: World)
    requires Held(c.nonces, table)
    ensures var m := MapCall(c, table, a, w); Held(m.client.nonces, m.table)
  {
    if CheckArgs(c, a, w).None? {
      var d := Asked(c, a, w);
      var nonces := AfterPick(c.nonces, d.key, w.candidate.value, d.lifetime);
      PickBinds(c.nonces, table, d.key, w.candidate.value, d.lifetime);
      if c.gateway {
        TravelKeepsHeld(nonces, table, Some(d), w.attempts, 0);
        if d.lifetime == 0 && MapCall(c, table, a, w).result.Ok? {
          AcceptedDeleteClears(table, d, w.attempts, 0);
        }
      }
    }
  }

  /** What a call does to the nonces: it forgets one exactly on an accepted delete. */
  lemma MapCallNonces(c: ClientState, table: Table, a: MapArgs, w: World)
    ensures var m := MapCall(c, table, a, w);
            && (CheckArgs(c, a, w).Some? ==> m.client.nonces == c.nonces && m.table == table && m.result.Err?)
            && (CheckArgs(c, a, w).None? && a.lifetime > 0 ==>
                  m.client.nonces == c.nonces[KeyOf(a.protocol, a.internalPort) := Asked(c, a, w).nonce])
            && (CheckArgs(c, a, w).None? && a.lifetime <= 0 ==>
                  m.client.nonces == if m.result.Ok? then c.nonces - {KeyOf(a.protocol, a.internalPort)} else c.nonces)
  {
  }

  /** A delete that reports success is real: no mapping of ours is left at its key. */
  lemma DeleteCallIsReal(c: ClientState, table: Table, protocol: string, port: int, w: World)
    requires DeleteCall(c, table, protocol, port, w).error.None?
    ensures ProtocolNumber(protocol).Some? && 0 < port <= 65535
    ensures var m := DeleteCall(c, table, protocol, port, w); var key := KeyOf(protocol, port);
            NotOurs(m.table, key) && key !in m.client.nonces
  {
    var a := MapArgs(protocol, port, 0, NoAddr, 0);
    AcceptedDeleteClears(table, Asked(c, a, w), w.attempts, 0);
  }

  // ---------------------------------------------------------------- when a delete succeeds

  /** Whatever is lost, late or duplicated, attempt `k` is the one answered, and it is not refused. */
  predicate Reaches(w: World, k: nat) {
    && w.candidate.Some? && FirstDecided(w.attempts, 0, k)
    && AttemptAt(w.attempts, k).fate.Served? && AttemptAt(w.attempts, k).fate.ans.refusal.None?
  }

  ghost predicate Delivered(w: World) {
    exists k :: Reaches(w, k)
  }

  /** What is at the key, if anything, answers to the nonce sent. */
  predicate Matches(table: Table, d: Decoded) {
    d.key in table ==> table[d.key].nonce == d.nonce
  }

  function DeleteArgs(protocol: string, port: int): MapArgs {
    MapArgs(protocol, port, 0, NoAddr, 0)
  }

  predicate CanAsk(c: ClientState, protocol: string, port: int) {
    ProtocolNumber(protocol).Some? && 0 < port <= 65535 && c.gateway && c.localIP != NoAddr
  }

  /**
   A delete succeeds exactly when some attempt is answered, none before it being cut short,
   the server does not refuse it, and what it finds at the key then, if anything, has the
   nonce sent.
   */
  lemma DeleteSucceedsExactly(c: ClientState, table: Table, protocol: string, port: int, w: World)
    requires CanAsk(c, protocol, port) && w.candidate.Some?
    ensures var d := Asked(c, DeleteArgs(protocol, port), w);
            DeleteCall(c, table, protocol, port, w).error.None?
            <==> exists k :: Reaches(w, k) && Matches(TableAt(table, Some(d), w.attempts, 0, k), d)
  {
    var d := Asked(c, DeleteArgs(protocol, port), w);
    var o := Travel(table, Some(d), w.attempts, 0).outcome;
    FirstOutcomeCounts(table, Some(d), w.attempts, 0);
    if o != Failed(NoAnswer) {
      var k := DecidingAttempt(table, Some(d), w.attempts, 0);
      if AttemptAt(w.attempts, k).fate.Served? {
        DeleteAnsweredAt(c, table, protocol, port, w, k);
        assert forall j: nat :: Reaches(w, j) ==> j == k;
      } else {
        assert forall j: nat :: FirstDecided(w.attempts, 0, j) ==> j == k;
      }
    }
  }

  lemma DeleteAnsweredAt(c: ClientState, table: Table, protocol: string, port: int, w: World, k: nat)
    requires CanAsk(c, protocol, port) && w.candidate.Some?
    requires FirstDecided(w.attempts, 0, k) && AttemptAt(w.attempts, k).fate.Served?
    ensures var d := Asked(c, DeleteArgs(protocol, port), w);
            var at := TableAt(table, Some(d), w.attempts, 0, k);
            var m := DeleteCall(c, table, protocol, port, w);
            && (m.error.None? <==> Reaches(w, k) && Matches(at, d))
            && (!Matches(at, d) ==> m.error == Some(Wrapped("delete mapping: ", Base(Pcp(NOT_AUTHORIZED)))))
            && m.table == After(if m.error.None? then at - {d.key} else at, Some(d), AttemptAt(w.attempts, k).after)
  {
    var d := Asked(c, DeleteArgs(protocol, port), w);
    ServedOutcome(table, Some(d), w.attempts, 0, k);
  }

  /** No other process takes the key. */
  predicate Unclaimed(hs: seq<Happening>, key: Key) {
    forall i :: 0 <= i < |hs| && hs[i].OtherMaps? ==> hs[i].key != key
  }

  /** Nor does one before attempt `k` is served. */
  predicate UnclaimedUntil(attempts: seq<Attempt>, key: Key, i: nat, k: nat) {
    && (forall j :: i <= j <= k ==> Unclaimed(AttemptAt(attempts, j).before, key))
    && (forall j :: i <= j < k ==> Unclaimed(AttemptAt(attempts, j).after, key))
  }

  predicate NotTheirs(table: Table, key: Key) {
    key in table ==> table[key].owner == Ours
  }

  lemma {:induction false} StillMatches(table: Table, d: Decoded, hs: seq<Happening>)
    requires Matches(table, d) && Unclaimed(hs, d.key)
    ensures Matches(After(table, Some(d), hs), d)
    decreases |hs|
  {
    if hs != [] {
      StillMatches(AfterOne(table, Some(d), hs[0]), d, hs[1..]);
    }
  }

  lemma {:induction false} MatchesAt(table: Table, d: Decoded, attempts: seq<Attempt>, i: nat, k: nat)
    requires i <= k && Matches(table, d) && UnclaimedUntil(attempts, d.key, i, k)
    ensures Matches(TableAt(table, Some(d), attempts, i, k), d)
    decreases k - i
  {
    var a := AttemptAt(attempts, i);
    var t := After(table, Some(d), a.before);
    StillMatches(table, d, a.before);
    if i < k {
      StillMatches(t, d, a.after);
      MatchesAt(After(t, Some(d), a.after), d, attempts, i + 1, k);
    }
  }

  lemma {:induction false} StaysAbsent(table: Table, d: Decoded, hs: seq<Happening>)
    requires d.lifetime == 0 && d.key !in table && Unclaimed(hs, d.key)
    ensures d.key !in After(table, Some(d), hs)
    decreases |hs|
  {
    if hs != [] {
      StaysAbsent(AfterOne(table, Some(d), hs[0]), d, hs[1..]);
    }
  }

  /**
   Whatever is lost, duplicated, expired or restarted on the way, a delete that is answered
   and not refused leaves no mapping of ours at the key. It succeeds exactly when the server
   then finds nothing there but what has the nonce sent; if what was there was ours, only
   another process that takes the key in the meantime can prevent that.
   */
  lemma DeliveredDelete(c: ClientState, table: Table, protocol: string, port: int, w: World, k: nat)
    requires CanAsk(c, protocol, port) && Reaches(w, k)
    ensures var d := Asked(c, DeleteArgs(protocol, port), w);
            var at := TableAt(table, Some(d), w.attempts, 0, k);
            var m := DeleteCall(c, table, protocol, port, w);
            && (m.error.None? <==> Matches(at, d))
            && (m.error.Some? ==> m.error == Some(Wrapped("delete mapping: ", Base(Pcp(NOT_AUTHORIZED)))))
            && (m.error.None? ==> d.key !in m.client.nonces)
            && (m.error.None? && Unclaimed(AttemptAt(w.attempts, k).after, d.key) ==> d.key !in m.table)
            && (Held(c.nonces, table) ==> NotOurs(m.table, d.key))
            && (Held(c.nonces, table) && NotTheirs(table, d.key) && UnclaimedUntil(w.attempts, d.key, 0, k) ==>
                  m.error.None?)
  {
    var d := Asked(c, DeleteArgs(protocol, port), w);
    var at := TableAt(table, Some(d), w.attempts, 0, k);
    var hs := AttemptAt(w.attempts, k).after;
    DeleteAnsweredAt(c, table, protocol, port, w, k);
    if Matches(at, d) && Unclaimed(hs, d.key) {
      StaysAbsent(at - {d.key}, d, hs);
    }
    if Held(c.nonces, table) {
      TableAtKeepsHeld(c.nonces, table, d, w.attempts, 0, k);
      AfterStaysClear(if Matches(at, d) then at - {d.key} else at, d, hs);
      if NotTheirs(table, d.key) && UnclaimedUntil(w.attempts, d.key, 0, k) {
        MatchesAt(table, d, w.attempts, 0, k);
      }
    }
  }

  /**
   That other process is a real case: the first datagram deletes the mapping, its reply is
   lost, somebody else takes the key, and the retry is told NOT_AUTHORIZED.
   */
  lemma RetryFindsAnother(n: Nonce, other: Nonce) returns (c: ClientState, table: Table, w: World)
    requires n != other
    ensures CanAsk(c, "udp", 4444) && Held(c.nonces, table) && Reaches(w, 1)
    ensures table == map[Key(17, 4444) := Entry(n, Ours)]
    ensures DeleteCall(c, table, "udp", 4444, w).error
            == Some(Wrapped("delete mapping: ", Base(Pcp(NOT_AUTHORIZED))))
    ensures DeleteCall(c, table, "udp", 4444, w).table == map[Key(17, 4444) := Entry(other, Theirs)]
  {
    var key := Key(17, 4444);
    var ans := ServerAnswer(None, 0, 1, 0, NoAddr);
    c := ClientState(true, UNSPECIFIED4, Epoch.FRESH, NoAddr, map[key := n], []);
    table := map[key := Entry(n, Ours)];
    var lost, answered := [Arrives(ans), OtherMaps(key, other)], Attempt([], Served(ans), [], 0.0, 0);
    w := World([Attempt(lost, Unanswered, [], 0.0, 0), answered], Some(n), 0);
    var d := Asked(c, DeleteArgs("udp", 4444), w);
    var none: seq<Happening> := [];
    assert lost[1..] == [OtherMaps(key, other)] && lost[1..][1..] == none;
    assert AfterOne(table, Some(d), lost[0]) == map[];
    assert AfterOne(map[], Some(d), lost[1]) == map[key := Entry(other, Theirs)];
    assert After(map[], Some(d), lost[1..]) == After(map[key := Entry(other, Theirs)], Some(d), none);
    assert After(table, Some(d), lost) == map[key := Entry(other, Theirs)];
    assert TableAt(table, Some(d), w.attempts, 1, 1) == table;
    assert TableAt(table, Some(d), w.attempts, 0, 1) == map[key := Entry(other, Theirs)];
    DeleteAnsweredAt(c, table, "udp", 4444, w, 1);
  }

  /** The temporary mapping behind GetExternalAddress leaves nothing undeletable either. */
  lemma ExternalCallKeepsHeld(c: ClientState, table: Table, clock: nat, create: World, remove: World)
    requires Held(c.nonces, table)
    ensures var m := ExternalCall(c, table, clock, create, remove); Held(m.client.nonces, m.table)
  {
    var a := AddArgs("udp", EphemeralPort(clock), 1_000_000_000);
    MapCallKeepsHeld(c, table, a, create);
    var m := MapCall(c, table, a, create);
    MapCallKeepsHeld(m.client, m.table, MapArgs("udp", EphemeralPort(clock), 0, NoAddr, 0), remove);
  }

  /**
   What GetExternalAddress says stays said. After a success with a usable address, later
   calls cause no traffic and give that address, unless the reply to the delete brought a
   newer one; and if the delete is answered and not refused, no mapping of ours is left at the port.
   */
  lemma ExternalAddressIsKept(c: ClientState, table: Table, clock: nat, create: World, remove: World,
                              table': Table, clock': nat, create': World, remove': World)
    requires Held(c.nonces, table)
    requires var r := ExternalCall(c, table, clock, create, remove).result;
             r.Ok? && r.value != NoAddr && !IsUnspecified(r.value)
    ensures var m := ExternalCall(c, table, clock, create, remove);
            && m.client.externalIP != NoAddr
            && ExternalCall(m.client, table', clock', create', remove')
               == Called(m.client, table', Ok(m.client.externalIP))
            && (c.externalIP != NoAddr ==> m == Called(c, table, Ok(c.externalIP)))
            && (c.externalIP == NoAddr && Delivered(remove) ==> NotOurs(m.table, Key(17, EphemeralPort(clock))))
            && (m.client.externalIP != m.result.value ==> Key(17, EphemeralPort(clock)) !in m.client.nonces)
  {
    if c.externalIP == NoAddr {
      var a := AddArgs("udp", EphemeralPort(clock), 1_000_000_000);
      var m := MapCall(c, table, a, create);
      MapCallKeepsHeld(c, table, a, create);
      var d := DeleteCall(m.client, m.table, "udp", EphemeralPort(clock), remove);
      assert KeyOf("udp", EphemeralPort(clock)) == Key(17, EphemeralPort(clock));
      if d.error.None? {
        DeleteCallIsReal(m.client, m.table, "udp", EphemeralPort(clock), remove);
      }
      if Delivered(remove) {
        var k :| Reaches(remove, k);
        DeliveredDelete(m.client, m.table, "udp", EphemeralPort(clock), remove, k);
      }
    }
  }

  /** An announce is about no mapping: it changes no nonce and makes no mapping. */
  lemma AnnounceKeepsHeld(c: ClientState, table: Table, w: World)
    requires Held(c.nonces, table)
    ensures var m := AnnounceCall(c, table, w); m.client.nonces == c.nonces && Held(m.client.nonces, m.table)
  {
    TravelKeepsHeld(c.nonces, table, None, w.attempts, 0);
  }
}
