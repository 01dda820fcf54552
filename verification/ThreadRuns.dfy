/**
 What the step system of `Threads` can always still do, and the two runs that show
 what its safety rests on.
 */
module ThreadRuns {
  import opened Basics
  import opened MapRules
  import opened Threads

  // ---------------------------------------------------------------- building runs

  ghost predicate Leads(rules: Rules, s: State, end: State) {
    exists steps: seq<Step> :: Valid(rules, s, steps) && Exec(rules, s, steps) == end
  }

  lemma LeadsHere(rules: Rules, s: State)
    ensures Leads(rules, s, s)
  {
    var none: seq<Step> := [];
    assert Valid(rules, s, none) && Exec(rules, s, none) == s;
  }

  lemma LeadsBy(rules: Rules, s: State, st: Step, end: State)
    requires Enabled(s, st) && Leads(rules, Apply(rules, s, st), end)
    ensures Leads(rules, s, end)
  {
    var steps: seq<Step> :| Valid(rules, Apply(rules, s, st), steps) && Exec(rules, Apply(rules, s, st), steps) == end;
    var all := [st] + steps;
    assert all[0] == st && all[1..] == steps;
    assert Valid(rules, s, all) && Exec(rules, s, all) == end;
  }

  lemma {:induction false} LeadsThrough(rules: Rules, s: State, steps: seq<Step>, end: State)
    requires Valid(rules, s, steps) && Leads(rules, Exec(rules, s, steps), end)
    ensures Leads(rules, s, end)
    decreases |steps|
  {
    if steps != [] {
      LeadsThrough(rules, Apply(rules, s, steps[0]), steps[1..], end);
      LeadsBy(rules, s, steps[0], end);
    }
  }

  lemma LeadsTransitive(rules: Rules, s: State, mid: State, end: State)
    requires Leads(rules, s, mid) && Leads(rules, mid, end)
    ensures Leads(rules, s, end)
  {
    var steps: seq<Step> :| Valid(rules, s, steps) && Exec(rules, s, steps) == mid;
    LeadsThrough(rules, s, steps, end);
  }

  /** One step more at the end of a run. */
  lemma Advance(rules: Rules, origin: State, s: State, st: Step) returns (s': State)
    requires Leads(rules, origin, s) && Enabled(s, st)
    ensures s' == Apply(rules, s, st) && Leads(rules, origin, s')
  {
    s' := Apply(rules, s, st);
    LeadsHere(rules, s');
    LeadsBy(rules, s, st, s');
    LeadsTransitive(rules, origin, s, s');
  }

  lemma AdvanceOwn(rules: Rules, origin: State, s: State, t: nat, act: Act) returns (s': State)
    requires Leads(rules, origin, s) && t < |s.pcs| && CanAct(s, s.pcs[t], act)
    ensures s' == ApplyAct(rules, s, t, act) && Leads(rules, origin, s')
  {
    s' := Advance(rules, origin, s, Own(t, act));
  }

  /** Picks the nonce and puts the first datagram on the wire. */
  lemma Sends(rules: Rules, origin: State, s: State, t: nat) returns (s': State, p: Packet)
    requires Leads(rules, origin, s) && t < |s.pcs| && s.pcs[t].WantNonce? && s.mu.None?
    ensures Leads(rules, origin, s')
    ensures var pc := s.pcs[t];
            && p == Packet(s.nextSock, t, pc.call, NonceToSend(s.nonces, pc.call.key, pc.call.candidate))
            && s' == s.(pcs := s.pcs[t := Exchange(pc.call, pc.lock, p.nonce, 0, Some(p.sock))],
                        nonces := AfterPick(s.nonces, pc.call.key, pc.call.candidate, pc.call.lifetime),
                        nextSock := s.nextSock + 1, requests := s.requests + {p})
  {
    var s1 := AdvanceOwn(rules, origin, s, t, EnterNonce);
    var s2 := AdvanceOwn(rules, origin, s1, t, PickNonce);
    s' := AdvanceOwn(rules, origin, s2, t, OpenSocket);
    p := Packet(s.nextSock, t, s.pcs[t].call, s2.pcs[t].nonce);
    assert s'.pcs == s.pcs[t := s'.pcs[t]];
  }

  function Remaining(rules: Rules, requests: set<Packet>, t: nat): set<Packet> {
    if rules.prompt then set p | p in requests && p.tid != t else requests
  }

  /** One of its datagrams is served without refusal and the reply accepted. */
  lemma IsServed(rules: Rules, origin: State, s: State, t: nat, p: Packet) returns (s': State)
    requires Leads(rules, origin, s) && t < |s.pcs| && s.pcs[t].Exchange? && s.pcs[t].sock == Some(p.sock)
    requires p in s.requests && p.call == s.pcs[t].call && p.nonce == s.pcs[t].nonce
    requires p.call.key in s.table ==> s.table[p.call.key].nonce == p.nonce
    ensures Leads(rules, origin, s')
    ensures s' == s.(pcs := s.pcs[t := WantCommit(p.call, s.pcs[t].lock, p)],
                     table := Answer(s.table, p.call.key, p.nonce, p.call.lifetime, None).table,
                     replies := s.replies + {Reply(p, SUCCESS)},
                     requests := Remaining(rules, s.requests, t))
  {
    var s1 := Advance(rules, origin, s, Serve(p, None));
    s' := AdvanceOwn(rules, origin, s1, t, Receive(Reply(p, SUCCESS)));
  }

  lemma Commits(rules: Rules, origin: State, s: State, t: nat) returns (s': State)
    requires Leads(rules, origin, s) && t < |s.pcs| && s.pcs[t].WantCommit? && s.mu.None?
    ensures Leads(rules, origin, s')
    ensures var pc := s.pcs[t];
            s' == s.(pcs := s.pcs[t := Leaving(pc.call, pc.lock, Some(pc.packet))],
                     nonces := AfterAccept(s.nonces, pc.call.key, pc.call.lifetime))
  {
    var s1 := AdvanceOwn(rules, origin, s, t, EnterCommit);
    s' := AdvanceOwn(rules, origin, s1, t, Commit);
    assert s'.pcs == s.pcs[t := s'.pcs[t]];
  }

  // ---------------------------------------------------------------- no deadlock

  /** A step that ends the goroutine's present wait or critical section. */
  function NextAct(pc: Pc): Act
    requires !pc.Idle?
  {
    match pc
    case WantTable(_) => EnterTable
    case InTable(_) => LookupLock
    case WaitLock(_, _) => AcquireLock
    case WantNonce(_, _) => EnterNonce
    case InNonce(_, _) => PickNonce
    case Exchange(_, _, _, _, _) => GiveUp
    case WantCommit(_, _, _) => EnterCommit
    case InCommit(_, _, _) => Commit
    case Leaving(_, _, _) => Leave
  }

  predicate CanMove(s: State, t: nat) {
    t < |s.pcs| && !s.pcs[t].Idle? && CanAct(s, s.pcs[t], NextAct(s.pcs[t]))
  }

  /**
   No goroutine waits for a lock or for the network inside a section of `c.mu`, and a
   call that cannot go on waits for one that can: the goroutine inside `c.mu`, or the
   one exchange in flight for the very same mapping.
   */
  lemma SomeoneMoves(s: State, t: nat)
    requires Reachable(AS_WRITTEN, s) && t < |s.pcs| && !s.pcs[t].Idle?
    ensures forall u :: 0 <= u < |s.pcs| && InMu(s.pcs[u]) ==> CanMove(s, u)
    ensures exists u: nat :: CanMove(s, u)
                  && (u == t || InMu(s.pcs[u])
                      || (HasLock(s.pcs[u]) && s.pcs[u].call.key == s.pcs[t].call.key))
  {
    ReachableInv(s);
    if s.pcs[t].WaitLock? && s.pcs[t].lock in s.holder {
      var h := s.holder[s.pcs[t].lock];
      assert HasLock(s.pcs[h]) && s.pcs[h].call.key == s.pcs[t].call.key;
      MovesUnlessMu(s, h);
    } else {
      MovesUnlessMu(s, t);
    }
  }

  /** Past the lock, or not yet at it, only `c.mu` can be in the way. */
  lemma MovesUnlessMu(s: State, t: nat)
    requires Mu(s) && t < |s.pcs| && !s.pcs[t].Idle?
    requires s.pcs[t].WaitLock? ==> s.pcs[t].lock !in s.holder
    ensures CanMove(s, t) || (s.mu.Some? && s.mu.value < |s.pcs| && InMu(s.pcs[s.mu.value]) && CanMove(s, s.mu.value))
  {
  }

  function Rank(pc: Pc): int {
    match pc
    case Idle => 0
    case WantTable(_) => 16
    case InTable(_) => 15
    case WaitLock(_, _) => 14
    case WantNonce(_, _) => 13
    case InNonce(_, _) => 12
    case Exchange(_, _, _, attempt, sock) => 3 + 2 * (MAX_RETRIES - attempt) - (if sock.None? then 0 else 1)
    case WantCommit(_, _, _) => 3
    case InCommit(_, _, _) => 2
    case Leaving(_, _, _) => 1
  }

  lemma RankDecreases(s: State, t: nat, act: Act)
    requires t < |s.pcs| && CanAct(s, s.pcs[t], act)
    requires s.pcs[t].Exchange? ==> s.pcs[t].attempt < MAX_RETRIES
    ensures 0 <= Rank(ApplyAct(AS_WRITTEN, s, t, act).pcs[t]) < Rank(s.pcs[t]) <= 16
  {
  }

  /** Every call returns after at most 16 steps of its own, retries included. */
  lemma CallsAreBounded(s: State, t: nat, act: Act)
    requires Reachable(AS_WRITTEN, s) && t < |s.pcs| && CanAct(s, s.pcs[t], act)
    ensures 0 <= Rank(ApplyAct(AS_WRITTEN, s, t, act).pcs[t]) < Rank(s.pcs[t]) <= 16
    ensures forall u :: 0 <= u < |s.pcs| && u != t ==> ApplyAct(AS_WRITTEN, s, t, act).pcs[u] == s.pcs[u]
  {
    ReachableInv(s);
    RankDecreases(s, t, act);
  }

  // ---------------------------------------------------------------- a delete is always available

  ghost predicate Quiescent(s: State, t: nat, key: Key) {
    && t < |s.pcs| && s.pcs[t].Idle? && s.mu.None?
    && forall u :: 0 <= u < |s.pcs| && HasLock(s.pcs[u]) ==> s.pcs[u].call.key != key
  }

  lemma LedInv(s: State, end: State)
    requires Inv(s) && Leads(AS_WRITTEN, s, end)
    ensures Inv(end)
  {
    var steps: seq<Step> :| Valid(AS_WRITTEN, s, steps) && Exec(AS_WRITTEN, s, steps) == end;
    RunKeepsInv(s, steps);
  }

  /** A new call looks its lock up. */
  lemma ComesToLock(rules: Rules, origin: State, s: State, t: nat, call: Call) returns (s': State)
    requires rules.serialize && Leads(rules, origin, s) && t < |s.pcs| && s.pcs[t].Idle? && s.mu.None?
    ensures Leads(rules, origin, s') && t < |s'.pcs| && s'.pcs[t].WaitLock? && s'.pcs[t].call == call
    ensures s' == s.(pcs := s.pcs[t := s'.pcs[t]], lockOf := s'.lockOf, nextLock := s'.nextLock)
  {
    var s1 := Advance(rules, origin, s, Start(t, call));
    var s2 := AdvanceOwn(rules, origin, s1, t, EnterTable);
    s' := AdvanceOwn(rules, origin, s2, t, LookupLock);
    assert s'.pcs == s.pcs[t := s'.pcs[t]];
  }

  /** A call on a mapping nobody is busy with gets its lock. */
  lemma GetsLock(s: State, t: nat, call: Call) returns (s': State)
    requires Inv(s) && Quiescent(s, t, call.key)
    ensures Leads(AS_WRITTEN, s, s') && Inv(s')
    ensures t < |s'.pcs| && s'.pcs[t].WantNonce? && s'.pcs[t].call == call
    ensures s'.mu.None? && s'.table == s.table && s'.nonces == s.nonces
  {
    LeadsHere(AS_WRITTEN, s);
    var s1 := ComesToLock(AS_WRITTEN, s, s, t, call);
    LedInv(s, s1);
    LockIsFree(s1, t);
    s' := AdvanceOwn(AS_WRITTEN, s, s1, t, AcquireLock);
    LedInv(s, s');
  }

  lemma LockIsFree(s: State, t: nat)
    requires Inv(s) && t < |s.pcs| && s.pcs[t].WaitLock?
    requires forall u :: 0 <= u < |s.pcs| && HasLock(s.pcs[u]) ==> s.pcs[u].call.key != s.pcs[t].call.key
    ensures s.pcs[t].lock !in s.holder
  {
  }

  /**
   Whatever happened before, from any reachable state in which nobody is busy with the
   mapping, one delivered delete removes it, its nonce, and returns.
   */
  lemma DeleteIsAvailable(s: State, t: nat, key: Key, candidate: Nonce)
    requires Reachable(AS_WRITTEN, s) && Quiescent(s, t, key)
    requires key in s.table && s.table[key].owner == Ours
    ensures exists s' :: && Leads(AS_WRITTEN, s, s') && key !in s'.table && key !in s'.nonces
                         && t < |s'.pcs| && s'.pcs[t].Idle?
  {
    ReachableInv(s);
    var s1 := GetsLock(s, t, Call(key, 0, candidate));
    var s2, p := Sends(AS_WRITTEN, s, s1, t);
    var s3 := IsServed(AS_WRITTEN, s, s2, t, p);
    var s4 := Commits(AS_WRITTEN, s, s3, t);
    var s5 := AdvanceOwn(AS_WRITTEN, s, s4, t, Leave);
  }

  // ---------------------------------------------------------------- what safety rests on

  /** A mapping of ours that no request of ours can name any more. */
  predicate Stranded(s: State, key: Key) {
    key in s.table && s.table[key].owner == Ours && key !in s.nonces
  }

  /** Without lockMapping a delete overtakes the create it was meant to follow. */
  lemma DeleteOvertakesCreate(rules: Rules, key: Key, n: Nonce, m: Nonce) returns (end: State)
    requires !rules.serialize
    ensures Reachable(rules, end) && Stranded(end, key)
  {
    var s0 := Init(2);
    LeadsHere(rules, s0);
    var s1 := Advance(rules, s0, s0, Start(0, Call(key, 3600, n)));
    var s2, p := Sends(rules, s0, s1, 0);
    var s3 := Advance(rules, s0, s2, Start(1, Call(key, 0, m)));
    var s4, q := Sends(rules, s0, s3, 1);
    var s5 := IsServed(rules, s0, s4, 1, q);
    var s6 := Commits(rules, s0, s5, 1);
    end := Advance(rules, s0, s6, Serve(p, None));
  }

  /** If a datagram can outlive its exchange, a create given up on arrives after its delete. */
  lemma CreateOutlivesExchange(rules: Rules, key: Key, n: Nonce, m: Nonce) returns (end: State)
    requires rules.serialize && !rules.prompt
    ensures Reachable(rules, end) && Stranded(end, key)
  {
    var s0 := Init(1);
    LeadsHere(rules, s0);
    var s1 := GoesToLock(rules, s0, s0, 0, Call(key, 3600, n));
    var s2, p := Sends(rules, s0, s1, 0);
    var s3 := AdvanceOwn(rules, s0, s2, 0, GiveUp);
    var s4 := AdvanceOwn(rules, s0, s3, 0, Leave);
    var s5 := GoesToLock(rules, s0, s4, 0, Call(key, 0, m));
    var s6, q := Sends(rules, s0, s5, 0);
    var s7 := IsServed(rules, s0, s6, 0, q);
    var s8 := Commits(rules, s0, s7, 0);
    end := Advance(rules, s0, s8, Serve(p, None));
  }

  lemma GoesToLock(rules: Rules, origin: State, s: State, t: nat, call: Call) returns (s': State)
    requires rules.serialize && Leads(rules, origin, s)
    requires t < |s.pcs| && s.pcs[t].Idle? && s.mu.None? && s.holder == map[]
    ensures Leads(rules, origin, s') && t < |s'.pcs| && s'.pcs[t].WantNonce? && s'.pcs[t].call == call
    ensures s' == s.(pcs := s'.pcs, lockOf := s'.lockOf, nextLock := s'.nextLock, holder := map[s'.pcs[t].lock := t])
  {
    var s1 := ComesToLock(rules, origin, s, t, call);
    s' := AdvanceOwn(rules, origin, s1, t, AcquireLock);
  }

  /** Both halves of the design are needed: safety holds with them and only with them. */
  lemma SafeExactlyAsWritten(rules: Rules)
    ensures (forall s :: Reachable(rules, s) ==> Held(s.nonces, s.table)) <==> rules.serialize && rules.prompt
  {
    var n: Nonce := Zeros(12);
    if rules.serialize && rules.prompt {
      forall s | Reachable(rules, s) ensures Held(s.nonces, s.table) {
        NeverStranded(s);
      }
    } else if !rules.serialize {
      var s := DeleteOvertakesCreate(rules, Key(17, 4444), n, n);
      assert !Held(s.nonces, s.table);
    } else {
      var s := CreateOutlivesExchange(rules, Key(17, 4444), n, n);
      assert !Held(s.nonces, s.table);
    }
  }
}
