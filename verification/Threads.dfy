/**
 Any number of goroutines calling one `pcp.Client`, the network between it and its
 server, and the server, one atomic step at a time. The steps of a goroutine are the
 stretches of `lockMapping` and `addPortMappingWithHint` between two points where
 another goroutine can get in; `c.mu` and the per-mapping locks are explicit.
 */
module Threads {
  import opened Basics
  import opened MapRules

  datatype Call = Call(key: Key, lifetime: uint32, candidate: Nonce)

  /** A request datagram. Every attempt has a socket of its own. */
  datatype Packet = Packet(sock: nat, tid: nat, call: Call, nonce: Nonce)

  /** A reply reaches only the socket its request came from. */
  datatype Reply = Reply(packet: Packet, code: byte)

  /** Where a goroutine stands. */
  datatype Pc =
    | Idle
    | WantTable(call: Call)                           // before c.mu.Lock() in lockMapping
    | InTable(call: Call)                             // in that critical section
    | WaitLock(call: Call, lock: nat)                 // before lock.Lock()
    | WantNonce(call: Call, lock: nat)                // before the c.mu.Lock() that picks the nonce
    | InNonce(call: Call, lock: nat)                  // in that critical section
    | Exchange(call: Call, lock: nat, nonce: Nonce, attempt: nat, sock: Option<nat>) // in sendRequest
    | WantCommit(call: Call, lock: nat, packet: Packet)  // accepted, before the last c.mu.Lock()
    | InCommit(call: Call, lock: nat, packet: Packet)    // in that critical section
    | Leaving(call: Call, lock: nat, answered: Option<Packet>) // before the deferred Unlock

  datatype State = State(
    nonces: Nonces, lockOf: map<Key, nat>, nextLock: nat, holder: map<nat, nat>, mu: Option<nat>,
    pcs: seq<Pc>, requests: set<Packet>, replies: set<Reply>, nextSock: nat, table: Table)

  /** `serialize`: lockMapping is there. `prompt`: no datagram outlives its exchange. */
  datatype Rules = Rules(serialize: bool, prompt: bool)

  const AS_WRITTEN := Rules(true, true)

  datatype Act =
    | EnterTable | LookupLock | AcquireLock | EnterNonce | PickNonce
    | OpenSocket | AttemptFails | GiveUp | Receive(reply: Reply)
    | EnterCommit | Commit | Leave

  datatype Step =
    | Start(t: nat, call: Call)
    | Own(t: nat, act: Act)
    | Serve(packet: Packet, refusal: Option<Refusal>)
    | LoseRequest(packet: Packet)
    | LoseReply(reply: Reply)
    | Expire(key: Key)
    | Restart
    | OtherMaps(key: Key, nonce: Nonce)
    | OtherUnmaps(key: Key, nonce: Nonce)

  function Init(threads: nat): State {
    State(map[], map[], 0, map[], None, seq(threads, _ => Idle), {}, {}, 0, map[])
  }

  // ---------------------------------------------------------------- steps

  predicate Enabled(s: State, st: Step) {
    match st
    case Start(t, _) => t < |s.pcs| && s.pcs[t].Idle?
    case Own(t, act) => t < |s.pcs| && CanAct(s, s.pcs[t], act)
    case Serve(p, _) => p in s.requests
    case _ => true
  }

  predicate CanAct(s: State, pc: Pc, act: Act) {
    match act
    case EnterTable => pc.WantTable? && s.mu.None?
    case LookupLock => pc.InTable?
    case AcquireLock => pc.WaitLock? && pc.lock !in s.holder
    case EnterNonce => pc.WantNonce? && s.mu.None?
    case PickNonce => pc.InNonce?
    case OpenSocket => pc.Exchange? && pc.sock.None?
    case AttemptFails => pc.Exchange? && pc.attempt + 1 < MAX_RETRIES
    case GiveUp => pc.Exchange?
    case Receive(r) => pc.Exchange? && r in s.replies && pc.sock == Some(r.packet.sock)
    case EnterCommit => pc.WantCommit? && s.mu.None?
    case Commit => pc.InCommit?
    case Leave => pc.Leaving?
  }

  function Apply(rules: Rules, s: State, st: Step): State
    requires Enabled(s, st)
  {
    match st
    case Start(t, call) => Move(s, t, if rules.serialize then WantTable(call) else WantNonce(call, 0))
    case Own(t, act) => ApplyAct(rules, s, t, act)
    case Serve(p, refusal) =>
      var a := Answer(s.table, p.call.key, p.nonce, p.call.lifetime, refusal);
      s.(table := a.table, replies := s.replies + {Reply(p, a.code)})
    case LoseRequest(p) => s.(requests := s.requests - {p})
    case LoseReply(r) => s.(replies := s.replies - {r})
    case Expire(k) => s.(table := s.table - {k})
    case Restart => s.(table := map[])
    case OtherMaps(k, n) => s.(table := MapRules.OthersMap(s.table, k, n))
    case OtherUnmaps(k, n) => s.(table := MapRules.OthersUnmap(s.table, k, n))
  }

  function Move(s: State, t: nat, pc: Pc): State
    requires t < |s.pcs|
  {
    s.(pcs := s.pcs[t := pc])
  }

  /** The exchange of `t` is over: its sockets are closed. */
  function EndExchange(rules: Rules, s: State, t: nat, pc: Pc): State
    requires t < |s.pcs|
  {
    Move(s, t, pc).(requests := if rules.prompt then set p | p in s.requests && p.tid != t else s.requests)
  }

  function ApplyAct(rules: Rules, s: State, t: nat, act: Act): State
    requires t < |s.pcs| && CanAct(s, s.pcs[t], act)
  {
    var pc := s.pcs[t];
    match act
    case EnterTable => Move(s, t, InTable(pc.call)).(mu := Some(t))
    case LookupLock => DoLookup(s, t)
    case AcquireLock => DoAcquire(s, t)
    case EnterNonce => Move(s, t, InNonce(pc.call, pc.lock)).(mu := Some(t))
    case PickNonce => DoPick(s, t)
    case OpenSocket => DoOpen(s, t)
    case AttemptFails => Move(s, t, pc.(attempt := pc.attempt + 1, sock := None))
    case GiveUp => EndExchange(rules, s, t, Leaving(pc.call, pc.lock, None))
    case Receive(r) => EndExchange(rules, s, t, AfterReply(pc, r))
    case EnterCommit => Move(s, t, InCommit(pc.call, pc.lock, pc.packet)).(mu := Some(t))
    case Commit => DoCommit(s, t)
    case Leave => DoLeave(rules, s, t)
  }

  function DoLookup(s: State, t: nat): State
    requires t < |s.pcs| && s.pcs[t].InTable?
  {
    var call := s.pcs[t].call;
    if call.key in s.lockOf then Move(s, t, WaitLock(call, s.lockOf[call.key])).(mu := None)
    else Move(s, t, WaitLock(call, s.nextLock))
         .(mu := None, lockOf := s.lockOf[call.key := s.nextLock], nextLock := s.nextLock + 1)
  }

  function DoAcquire(s: State, t: nat): State
    requires t < |s.pcs| && s.pcs[t].WaitLock?
  {
    Move(s, t, WantNonce(s.pcs[t].call, s.pcs[t].lock)).(holder := s.holder[s.pcs[t].lock := t])
  }

  function DoPick(s: State, t: nat): State
    requires t < |s.pcs| && s.pcs[t].InNonce?
  {
    var call := s.pcs[t].call;
    var nonce := NonceToSend(s.nonces, call.key, call.candidate);
    Move(s, t, Exchange(call, s.pcs[t].lock, nonce, 0, None))
    .(mu := None, nonces := AfterPick(s.nonces, call.key, call.candidate, call.lifetime))
  }

  function DoOpen(s: State, t: nat): State
    requires t < |s.pcs| && s.pcs[t].Exchange?
  {
    Move(s, t, s.pcs[t].(sock := Some(s.nextSock)))
    .(nextSock := s.nextSock + 1,
      requests := s.requests + {Packet(s.nextSock, t, s.pcs[t].call, s.pcs[t].nonce)})
  }

  /** The echoed nonce, protocol and port are checked before the result code. */
  function AfterReply(pc: Pc, r: Reply): Pc
    requires pc.Exchange?
  {
    if r.packet.nonce == pc.nonce && r.packet.call.key == pc.call.key && r.code == SUCCESS
    then WantCommit(pc.call, pc.lock, r.packet)
    else Leaving(pc.call, pc.lock, None)
  }

  function DoCommit(s: State, t: nat): State
    requires t < |s.pcs| && s.pcs[t].InCommit?
  {
    var pc := s.pcs[t];
    Move(s, t, Leaving(pc.call, pc.lock, Some(pc.packet)))
    .(mu := None, nonces := AfterAccept(s.nonces, pc.call.key, pc.call.lifetime))
  }

  function DoLeave(rules: Rules, s: State, t: nat): State
    requires t < |s.pcs| && s.pcs[t].Leaving?
  {
    Move(s, t, Idle).(holder := if rules.serialize then s.holder - {s.pcs[t].lock} else s.holder)
  }

  // ---------------------------------------------------------------- runs

  ghost predicate Valid(rules: Rules, s: State, steps: seq<Step>)
    decreases |steps|
  {
    steps == [] || (Enabled(s, steps[0]) && Valid(rules, Apply(rules, s, steps[0]), steps[1..]))
  }

  ghost function Exec(rules: Rules, s: State, steps: seq<Step>): State
    requires Valid(rules, s, steps)
    decreases |steps|
  {
    if steps == [] then s else Exec(rules, Apply(rules, s, steps[0]), steps[1..])
  }

  // ---------------------------------------------------------------- the invariant

  predicate InMu(pc: Pc) {
    pc.InTable? || pc.InNonce? || pc.InCommit?
  }

  predicate HasLock(pc: Pc) {
    !pc.Idle? && !pc.WantTable? && !pc.InTable? && !pc.WaitLock?
  }

  ghost predicate MuInv(mu: Option<nat>, pcs: seq<Pc>) {
    && (forall t :: 0 <= t < |pcs| && InMu(pcs[t]) ==> mu == Some(t))
    && (mu.Some? ==> mu.value < |pcs| && InMu(pcs[mu.value]))
  }

  ghost predicate LockTableInv(lockOf: map<Key, nat>, nextLock: nat) {
    && (forall k, l :: k in lockOf && l in lockOf && lockOf[k] == lockOf[l] ==> k == l)
    && (forall k :: k in lockOf ==> lockOf[k] < nextLock)
  }

  ghost predicate HolderInv(lockOf: map<Key, nat>, holder: map<nat, nat>, pcs: seq<Pc>) {
    && (forall l :: l in holder ==> holder[l] < |pcs| && HasLock(pcs[holder[l]]) && pcs[holder[l]].lock == l)
    && (forall t :: 0 <= t < |pcs| && HasLock(pcs[t]) ==> pcs[t].lock in holder && holder[pcs[t].lock] == t)
    && (forall t :: 0 <= t < |pcs| && (HasLock(pcs[t]) || pcs[t].WaitLock?) ==>
                      pcs[t].call.key in lockOf && lockOf[pcs[t].call.key] == pcs[t].lock)
  }

  ghost predicate NonceInv(nonces: Nonces, table: Table, pcs: seq<Pc>) {
    && Held(nonces, table)
    && (forall t :: 0 <= t < |pcs| && pcs[t].Exchange? ==>
                      && Bound(nonces, pcs[t].call.key, pcs[t].nonce, pcs[t].call.lifetime)
                      && pcs[t].attempt < MAX_RETRIES)
  }

  /** What is on the wire belongs to the exchange it was sent in. */
  ghost predicate PacketInv(pcs: seq<Pc>, requests: set<Packet>, replies: set<Reply>, nextSock: nat) {
    && (forall t :: 0 <= t < |pcs| && pcs[t].Exchange? && pcs[t].sock.Some? ==> pcs[t].sock.value < nextSock)
    && (forall p :: p in requests ==>
          && p.sock < nextSock && p.tid < |pcs| && pcs[p.tid].Exchange?
          && pcs[p.tid].call == p.call && pcs[p.tid].nonce == p.nonce)
    && (forall p, t :: p in requests && 0 <= t < |pcs| && Awaits(pcs[t], p) ==> t == p.tid)
    && (forall r :: r in replies ==> r.packet.sock < nextSock)
    && (forall r, t :: r in replies && 0 <= t < |pcs| && Awaits(pcs[t], r.packet) ==>
          && r.packet.tid == t && pcs[t].call == r.packet.call && pcs[t].nonce == r.packet.nonce)
  }

  predicate Awaits(pc: Pc, p: Packet) {
    pc.Exchange? && pc.sock == Some(p.sock)
  }

  /** Once a delete is answered SUCCESS, the key stays clear until its lock is released. */
  ghost predicate DeleteInv(pcs: seq<Pc>, replies: set<Reply>, table: Table) {
    && (forall r, t :: r in replies && 0 <= t < |pcs| && Confirms(pcs[t], r) ==> NotOurs(table, pcs[t].call.key))
    && (forall t :: 0 <= t < |pcs| && Accepted(pcs[t]) ==>
          && Evidence(pcs[t]).tid == t && Evidence(pcs[t]).call == pcs[t].call
          && (pcs[t].call.lifetime == 0 ==> NotOurs(table, pcs[t].call.key)))
  }

  predicate Confirms(pc: Pc, r: Reply) {
    pc.Exchange? && pc.sock == Some(r.packet.sock) && r.code == SUCCESS && pc.call.lifetime == 0
  }

  predicate Accepted(pc: Pc) {
    pc.WantCommit? || pc.InCommit? || (pc.Leaving? && pc.answered.Some?)
  }

  /** The datagram whose reply was accepted. */
  function Evidence(pc: Pc): Packet
    requires Accepted(pc)
  {
    if pc.Leaving? then pc.answered.value else pc.packet
  }

  ghost predicate Mu(s: State) {
    MuInv(s.mu, s.pcs)
  }

  ghost predicate Locks(s: State) {
    LockTableInv(s.lockOf, s.nextLock) && HolderInv(s.lockOf, s.holder, s.pcs)
  }

  ghost predicate NoncesOk(s: State) {
    NonceInv(s.nonces, s.table, s.pcs)
  }

  ghost predicate Wire(s: State) {
    PacketInv(s.pcs, s.requests, s.replies, s.nextSock)
  }

  ghost predicate Deletes(s: State) {
    DeleteInv(s.pcs, s.replies, s.table)
  }

  ghost predicate Inv(s: State) {
    Mu(s) && Locks(s) && NoncesOk(s) && Wire(s) && Deletes(s)
  }

  /** Both are past the lock of the same mapping. */
  predicate Rivals(pc: Pc, other: Pc) {
    HasLock(pc) && HasLock(other) && pc.call.key == other.call.key
  }

  /** At most one call per mapping is past its lock. */
  lemma MutualExclusion(s: State, t: nat, u: nat)
    requires Locks(s) && t < |s.pcs| && u < |s.pcs|
    requires Rivals(s.pcs[t], s.pcs[u])
    ensures t == u
  {
  }

  lemma InitInv(threads: nat)
    ensures Inv(Init(threads))
  {
  }

  lemma ActKeepsMu(s: State, t: nat, act: Act)
    requires Mu(s) && t < |s.pcs| && CanAct(s, s.pcs[t], act)
    ensures Mu(ApplyAct(AS_WRITTEN, s, t, act))
  {
  }

  /** A move between two points on the same side of the lock. */
  lemma HoldersUntouched(s: State, t: nat, pc: Pc)
    requires HolderInv(s.lockOf, s.holder, s.pcs) && t < |s.pcs|
    requires HasLock(s.pcs[t]) == HasLock(pc) && !pc.WaitLock?
    requires HasLock(pc) ==> pc.call == s.pcs[t].call && pc.lock == s.pcs[t].lock
    ensures HolderInv(s.lockOf, s.holder, s.pcs[t := pc])
  {
  }

  /** Learning the lock of a key, known or new, disturbs no holder. */
  lemma WaiterJoins(s: State, t: nat, lockOf: map<Key, nat>, pc: Pc)
    requires HolderInv(s.lockOf, s.holder, s.pcs) && t < |s.pcs| && s.pcs[t].InTable?
    requires forall k :: k in s.lockOf ==> k in lockOf && lockOf[k] == s.lockOf[k]
    requires pc.WaitLock? && pc.call.key in lockOf && lockOf[pc.call.key] == pc.lock
    ensures HolderInv(lockOf, s.holder, s.pcs[t := pc])
  {
  }

  lemma LookupKeepsLocks(s: State, t: nat)
    requires Locks(s) && t < |s.pcs| && s.pcs[t].InTable?
    ensures Locks(DoLookup(s, t))
  {
    var s' := DoLookup(s, t);
    WaiterJoins(s, t, s'.lockOf, s'.pcs[t]);
  }

  lemma AcquireKeepsLocks(s: State, t: nat)
    requires Locks(s) && t < |s.pcs| && CanAct(s, s.pcs[t], AcquireLock)
    ensures Locks(DoAcquire(s, t))
  {
  }

  lemma LeaveKeepsLocks(s: State, t: nat)
    requires Locks(s) && t < |s.pcs| && s.pcs[t].Leaving?
    ensures Locks(DoLeave(AS_WRITTEN, s, t))
  {
  }

  lemma ActKeepsLocks(s: State, t: nat, act: Act)
    requires Locks(s) && t < |s.pcs| && CanAct(s, s.pcs[t], act)
    ensures Locks(ApplyAct(AS_WRITTEN, s, t, act))
  {
    match act {
      case LookupLock => LookupKeepsLocks(s, t);
      case AcquireLock => AcquireKeepsLocks(s, t);
      case Leave => LeaveKeepsLocks(s, t);
      case _ => HoldersUntouched(s, t, ApplyAct(AS_WRITTEN, s, t, act).pcs[t]);
    }
  }

  /** Nonces of one key change only under its lock, so no other exchange is disturbed. */
  lemma PickKeepsNonces(s: State, t: nat)
    requires NoncesOk(s) && Locks(s) && t < |s.pcs| && s.pcs[t].InNonce?
    ensures NoncesOk(DoPick(s, t))
  {
    var s' := DoPick(s, t);
    PickBinds(s.nonces, s.table, s.pcs[t].call.key, s.pcs[t].call.candidate, s.pcs[t].call.lifetime);
    forall u | 0 <= u < |s'.pcs| && s'.pcs[u].Exchange? && u != t
      ensures Bound(s'.nonces, s'.pcs[u].call.key, s'.pcs[u].nonce, s'.pcs[u].call.lifetime)
    {
      if s.pcs[u].call.key == s.pcs[t].call.key {
        MutualExclusion(s, t, u);
      }
    }
  }

  lemma CommitKeepsNonces(s: State, t: nat)
    requires NoncesOk(s) && Locks(s) && Deletes(s) && t < |s.pcs| && s.pcs[t].InCommit?
    ensures NoncesOk(DoCommit(s, t))
  {
    var s' := DoCommit(s, t);
    forall u | 0 <= u < |s'.pcs| && s'.pcs[u].Exchange?
      ensures Bound(s'.nonces, s'.pcs[u].call.key, s'.pcs[u].nonce, s'.pcs[u].call.lifetime)
    {
      if s.pcs[u].call.key == s.pcs[t].call.key {
        MutualExclusion(s, t, u);
      }
    }
  }

  lemma ActKeepsNonces(s: State, t: nat, act: Act)
    requires NoncesOk(s) && Locks(s) && Deletes(s) && t < |s.pcs| && CanAct(s, s.pcs[t], act)
    ensures NoncesOk(ApplyAct(AS_WRITTEN, s, t, act))
  {
    match act {
      case PickNonce => PickKeepsNonces(s, t);
      case Commit => CommitKeepsNonces(s, t);
      case _ =>
    }
  }

  /** Steps that neither open nor close a socket leave the wire alone. */
  lemma WireUntouched(s: State, t: nat, pc: Pc)
    requires Wire(s) && t < |s.pcs| && !s.pcs[t].Exchange?
    requires pc.Exchange? ==> pc.sock.None?
    ensures PacketInv(s.pcs[t := pc], s.requests, s.replies, s.nextSock)
  {
  }

  lemma OpenKeepsPackets(s: State, t: nat)
    requires Wire(s) && t < |s.pcs| && CanAct(s, s.pcs[t], OpenSocket)
    ensures Wire(DoOpen(s, t))
  {
  }

  lemma FailKeepsPackets(s: State, t: nat)
    requires Wire(s) && t < |s.pcs| && CanAct(s, s.pcs[t], AttemptFails)
    ensures Wire(Move(s, t, s.pcs[t].(attempt := s.pcs[t].attempt + 1, sock := None)))
  {
  }

  lemma EndKeepsPackets(s: State, t: nat, pc: Pc)
    requires Wire(s) && t < |s.pcs| && !pc.Exchange?
    ensures Wire(EndExchange(AS_WRITTEN, s, t, pc))
  {
  }

  lemma ActKeepsPackets(s: State, t: nat, act: Act)
    requires Wire(s) && t < |s.pcs| && CanAct(s, s.pcs[t], act)
    ensures Wire(ApplyAct(AS_WRITTEN, s, t, act))
  {
    match act {
      case OpenSocket => OpenKeepsPackets(s, t);
      case AttemptFails => FailKeepsPackets(s, t);
      case GiveUp => EndKeepsPackets(s, t, Leaving(s.pcs[t].call, s.pcs[t].lock, None));
      case Receive(r) => EndKeepsPackets(s, t, AfterReply(s.pcs[t], r));
      case _ => WireUntouched(s, t, ApplyAct(AS_WRITTEN, s, t, act).pcs[t]);
    }
  }

  /** A goroutine that waits for no reply and has none accepted claims nothing new. */
  lemma ClaimsUntouched(s: State, t: nat, pc: Pc)
    requires Deletes(s) && t < |s.pcs|
    requires !Accepted(pc) || (Accepted(s.pcs[t]) && pc.call == s.pcs[t].call && Evidence(pc) == Evidence(s.pcs[t]))
    requires pc.Exchange? ==> pc.sock.None?
    ensures DeleteInv(s.pcs[t := pc], s.replies, s.table)
  {
  }

  lemma ReceiveKeepsDeletes(s: State, t: nat, r: Reply)
    requires Wire(s) && Deletes(s) && t < |s.pcs| && CanAct(s, s.pcs[t], Receive(r))
    ensures DeleteInv(s.pcs[t := AfterReply(s.pcs[t], r)], s.replies, s.table)
  {
    assert AfterReply(s.pcs[t], r).WantCommit? && s.pcs[t].call.lifetime == 0 ==> Confirms(s.pcs[t], r);
  }

  lemma OpenKeepsDeletes(s: State, t: nat)
    requires Wire(s) && Deletes(s) && t < |s.pcs| && s.pcs[t].Exchange?
    ensures Deletes(DoOpen(s, t))
  {
  }

  lemma ActKeepsDeletes(s: State, t: nat, act: Act)
    requires Wire(s) && Deletes(s) && t < |s.pcs| && CanAct(s, s.pcs[t], act)
    ensures Deletes(ApplyAct(AS_WRITTEN, s, t, act))
  {
    match act {
      case OpenSocket => OpenKeepsDeletes(s, t);
      case Receive(r) => ReceiveKeepsDeletes(s, t, r);
      case _ => ClaimsUntouched(s, t, ApplyAct(AS_WRITTEN, s, t, act).pcs[t]);
    }
  }

  lemma ServeKeepsPackets(s: State, p: Packet, refusal: Option<Refusal>)
    requires Wire(s) && p in s.requests
    ensures Wire(Apply(AS_WRITTEN, s, Serve(p, refusal)))
  {
  }

  /** A served request cannot re-create what another goroutine, or this very exchange, deleted. */
  lemma ServeKeepsClear(s: State, p: Packet, refusal: Option<Refusal>, t: nat)
    requires Locks(s) && Wire(s) && p in s.requests
    requires t < |s.pcs| && HasLock(s.pcs[t]) && s.pcs[t].call.lifetime == 0
    requires NotOurs(s.table, s.pcs[t].call.key)
    ensures NotOurs(Apply(AS_WRITTEN, s, Serve(p, refusal)).table, s.pcs[t].call.key)
  {
    if s.pcs[t].call.key == p.call.key {
      MutualExclusion(s, t, p.tid);
    }
  }

  lemma ServeKeepsDeletes(s: State, p: Packet, refusal: Option<Refusal>)
    requires Locks(s) && Wire(s) && Deletes(s) && p in s.requests
    ensures Deletes(Apply(AS_WRITTEN, s, Serve(p, refusal)))
  {
    var s' := Apply(AS_WRITTEN, s, Serve(p, refusal));
    forall r, t | r in s'.replies && 0 <= t < |s.pcs| && Confirms(s.pcs[t], r)
      ensures NotOurs(s'.table, s.pcs[t].call.key)
    {
      if r in s.replies {
        ServeKeepsClear(s, p, refusal, t);
      } else {
        DeleteAnswer(s.table, p.call.key, p.nonce, refusal);
      }
    }
    forall t | 0 <= t < |s.pcs| && Accepted(s.pcs[t]) && s.pcs[t].call.lifetime == 0
      ensures NotOurs(s'.table, s.pcs[t].call.key)
    {
      ServeKeepsClear(s, p, refusal, t);
    }
  }

  lemma ServeKeepsInv(s: State, p: Packet, refusal: Option<Refusal>)
    requires Inv(s) && p in s.requests
    ensures Inv(Apply(AS_WRITTEN, s, Serve(p, refusal)))
  {
    AnswerKeepsHeld(s.nonces, s.table, p.call.key, p.nonce, p.call.lifetime, refusal);
    ServeKeepsPackets(s, p, refusal);
    ServeKeepsDeletes(s, p, refusal);
  }

  lemma StartKeepsInv(s: State, t: nat, call: Call)
    requires Inv(s) && t < |s.pcs| && s.pcs[t].Idle?
    ensures Inv(Apply(AS_WRITTEN, s, Start(t, call)))
  {
    WireUntouched(s, t, WantTable(call));
    HoldersUntouched(s, t, WantTable(call));
    ClaimsUntouched(s, t, WantTable(call));
  }

  /** Whatever else happens to the table, no mapping of ours appears or changes nonce. */
  lemma TableShrinks(s: State, table: Table)
    requires Inv(s)
    requires forall k :: k in table && table[k].owner == Ours ==> k in s.table && s.table[k] == table[k]
    ensures Inv(s.(table := table))
  {
    assert forall k :: NotOurs(s.table, k) ==> NotOurs(table, k);
    assert Held(s.nonces, table);
    assert DeleteInv(s.pcs, s.replies, table);
  }

  lemma LossKeepsInv(s: State, requests: set<Packet>, replies: set<Reply>)
    requires Inv(s) && requests <= s.requests && replies <= s.replies
    ensures Inv(s.(requests := requests, replies := replies))
  {
  }

  lemma StepKeepsInv(s: State, st: Step)
    requires Inv(s) && Enabled(s, st)
    ensures Inv(Apply(AS_WRITTEN, s, st))
  {
    match st {
      case Start(t, call) => StartKeepsInv(s, t, call);
      case Own(t, act) =>
        ActKeepsMu(s, t, act);
        ActKeepsLocks(s, t, act);
        ActKeepsNonces(s, t, act);
        ActKeepsPackets(s, t, act);
        ActKeepsDeletes(s, t, act);
      case Serve(p, refusal) => ServeKeepsInv(s, p, refusal);
      case LoseRequest(p) => LossKeepsInv(s, s.requests - {p}, s.replies);
      case LoseReply(r) => LossKeepsInv(s, s.requests, s.replies - {r});
      case Expire(k) => TableShrinks(s, s.table - {k});
      case Restart => TableShrinks(s, map[]);
      case OtherMaps(k, n) => TableShrinks(s, MapRules.OthersMap(s.table, k, n));
      case OtherUnmaps(k, n) => TableShrinks(s, MapRules.OthersUnmap(s.table, k, n));
    }
  }

  // ---------------------------------------------------------------- safety over whole runs

  lemma {:induction false} RunKeepsInv(s: State, steps: seq<Step>)
    requires Inv(s) && Valid(AS_WRITTEN, s, steps)
    ensures Inv(Exec(AS_WRITTEN, s, steps))
    decreases |steps|
  {
    if steps != [] {
      StepKeepsInv(s, steps[0]);
      RunKeepsInv(Apply(AS_WRITTEN, s, steps[0]), steps[1..]);
    }
  }

  ghost predicate Reachable(rules: Rules, s: State) {
    exists threads: nat, steps: seq<Step> :: Valid(rules, Init(threads), steps)
                                            && s == Exec(rules, Init(threads), steps)
  }

  lemma ReachableInv(s: State)
    requires Reachable(AS_WRITTEN, s)
    ensures Inv(s)
  {
    var threads: nat, steps: seq<Step> :| Valid(AS_WRITTEN, Init(threads), steps)
                                        && s == Exec(AS_WRITTEN, Init(threads), steps);
    InitInv(threads);
    RunKeepsInv(Init(threads), steps);
  }

  /**
   Never stranded: in every reachable state the client holds the nonce of every mapping
   it has on the server, so no request about one, wherever it is in flight, can be
   answered NOT_AUTHORIZED.
   */
  lemma NeverStranded(s: State)
    requires Reachable(AS_WRITTEN, s)
    ensures Held(s.nonces, s.table)
    ensures forall p, refusal: Option<Refusal> ::
              p in s.requests && p.call.key in s.table && s.table[p.call.key].owner == Ours ==>
              Answer(s.table, p.call.key, p.nonce, p.call.lifetime, refusal).code
              == (if refusal.Some? then refusal.value else SUCCESS)
  {
    ReachableInv(s);
  }

  /** Mutual exclusion, for the locks and for what is on the wire. */
  lemma OneExchangePerMapping(s: State)
    requires Reachable(AS_WRITTEN, s)
    ensures forall t, u :: 0 <= t < |s.pcs| && 0 <= u < |s.pcs| && InMu(s.pcs[t]) && InMu(s.pcs[u]) ==> t == u
    ensures forall t, u :: 0 <= t < |s.pcs| && 0 <= u < |s.pcs| && Rivals(s.pcs[t], s.pcs[u]) ==> t == u
    ensures forall p, q :: p in s.requests && q in s.requests && p.call.key == q.call.key ==>
              p.call == q.call && p.nonce == q.nonce && p.tid == q.tid
  {
    ReachableInv(s);
    forall p, q | p in s.requests && q in s.requests && p.call.key == q.call.key
      ensures p.call == q.call && p.nonce == q.nonce && p.tid == q.tid
    {
      MutualExclusion(s, p.tid, q.tid);
    }
  }

  // ---------------------------------------------------------------- deletes are real

  /** Some step of the run is the server's SUCCESS to `p`, after which `p.call.key` was free. */
  ghost predicate ClearedBy(s: State, steps: seq<Step>, p: Packet)
    requires Valid(AS_WRITTEN, s, steps)
    decreases |steps|
  {
    && steps != []
    && var s' := Apply(AS_WRITTEN, s, steps[0]);
       (Clears(s, steps[0], p) || ClearedBy(s', steps[1..], p))
  }

  ghost predicate Clears(s: State, st: Step, p: Packet)
    requires Enabled(s, st)
  {
    && st.Serve? && st.packet == p
    && Answer(s.table, p.call.key, p.nonce, p.call.lifetime, st.refusal).code == SUCCESS
    && p.call.key !in Apply(AS_WRITTEN, s, st).table
  }

  /** A SUCCESS to `p` is on its way to its caller, or has reached it. */
  ghost predicate Known(s: State, p: Packet) {
    || Reply(p, SUCCESS) in s.replies
    || exists t :: 0 <= t < |s.pcs| && Accepted(s.pcs[t]) && Evidence(s.pcs[t]) == p
  }

  lemma KnownFromAct(s: State, t: nat, act: Act, p: Packet)
    requires t < |s.pcs| && CanAct(s, s.pcs[t], act)
    requires Known(ApplyAct(AS_WRITTEN, s, t, act), p)
    ensures Known(s, p)
  {
    var s' := ApplyAct(AS_WRITTEN, s, t, act);
    if Reply(p, SUCCESS) !in s'.replies {
      var u :| 0 <= u < |s'.pcs| && Accepted(s'.pcs[u]) && Evidence(s'.pcs[u]) == p;
      assert u != t ==> s'.pcs[u] == s.pcs[u];
      assert act.EnterCommit? || act.Commit? ==> Accepted(s.pcs[t]);
    }
  }

  lemma KnownFrom(s: State, st: Step, p: Packet)
    requires Enabled(s, st) && p.call.lifetime == 0
    requires Known(Apply(AS_WRITTEN, s, st), p)
    ensures Known(s, p) || Clears(s, st, p)
  {
    match st {
      case Serve(q, refusal) => DeleteAnswer(s.table, q.call.key, q.nonce, refusal);
      case Own(t, act) => KnownFromAct(s, t, act, p);
      case _ =>
    }
  }

  lemma {:induction false} KnownWasCleared(s: State, steps: seq<Step>, p: Packet)
    requires Valid(AS_WRITTEN, s, steps) && p.call.lifetime == 0
    requires Known(Exec(AS_WRITTEN, s, steps), p)
    ensures Known(s, p) || ClearedBy(s, steps, p)
    decreases |steps|
  {
    if steps != [] {
      var s' := Apply(AS_WRITTEN, s, steps[0]);
      KnownWasCleared(s', steps[1..], p);
      if Known(s', p) {
        KnownFrom(s, steps[0], p);
      }
    }
  }

  /** Goroutine `t` hears, or has accepted what it heard, on socket `sock`. */
  predicate Uses(s: State, t: nat, sock: nat) {
    && t < |s.pcs|
    && (|| (s.pcs[t].Exchange? && s.pcs[t].sock == Some(sock))
        || (Accepted(s.pcs[t]) && Evidence(s.pcs[t]).sock == sock))
  }

  predicate NoStart(steps: seq<Step>, t: nat) {
    forall i :: 0 <= i < |steps| && steps[i].Start? ==> steps[i].t != t
  }

  predicate Opens(s: State, st: Step, t: nat, sock: nat) {
    st == Own(t, OpenSocket) && s.nextSock == sock
  }

  /** In the run goroutine `t` opened `sock`, and has started no other call since. */
  ghost predicate OpenedInThisCall(s: State, steps: seq<Step>, t: nat, sock: nat)
    requires Valid(AS_WRITTEN, s, steps)
    decreases |steps|
  {
    && steps != []
    && (|| (Opens(s, steps[0], t, sock) && NoStart(steps[1..], t))
        || OpenedInThisCall(Apply(AS_WRITTEN, s, steps[0]), steps[1..], t, sock))
  }

  lemma UsesFrom(s: State, st: Step, t: nat, sock: nat)
    requires Enabled(s, st) && Uses(Apply(AS_WRITTEN, s, st), t, sock)
    ensures Opens(s, st, t, sock) || (Uses(s, t, sock) && !(st.Start? && st.t == t))
  {
    var s' := Apply(AS_WRITTEN, s, st);
    match st {
      case Start(u, call) => assert s'.pcs == s.pcs[u := WantTable(call)];
      case Own(u, act) =>
        if u == t {
          UsesFromAct(s, t, act, sock);
        } else {
          assert s'.pcs[t] == s.pcs[t];
        }
      case _ => assert s'.pcs == s.pcs;
    }
  }

  lemma UsesFromAct(s: State, t: nat, act: Act, sock: nat)
    requires t < |s.pcs| && CanAct(s, s.pcs[t], act) && Uses(ApplyAct(AS_WRITTEN, s, t, act), t, sock)
    ensures (act.OpenSocket? && s.nextSock == sock) || Uses(s, t, sock)
  {
  }

  lemma {:induction false} UsedWasOpened(s: State, steps: seq<Step>, t: nat, sock: nat)
    requires Valid(AS_WRITTEN, s, steps) && Uses(Exec(AS_WRITTEN, s, steps), t, sock)
    ensures OpenedInThisCall(s, steps, t, sock) || (Uses(s, t, sock) && NoStart(steps, t))
    decreases |steps|
  {
    if steps != [] {
      var s' := Apply(AS_WRITTEN, s, steps[0]);
      UsedWasOpened(s', steps[1..], t, sock);
      if !OpenedInThisCall(s', steps[1..], t, sock) {
        UsesFrom(s, steps[0], t, sock);
        assert steps == [steps[0]] + steps[1..];
      }
    }
  }

  /**
   A delete that is about to return nil is real twice over: the server answered the very
   datagram whose reply was accepted, sent on a socket that this call opened, with nothing
   left at the key; and no mapping of this client has come back there since.
   */
  lemma DeleteIsReal(threads: nat, steps: seq<Step>, t: nat)
    requires Valid(AS_WRITTEN, Init(threads), steps)
    requires var s := Exec(AS_WRITTEN, Init(threads), steps);
             t < |s.pcs| && Accepted(s.pcs[t]) && s.pcs[t].call.lifetime == 0
    ensures var s := Exec(AS_WRITTEN, Init(threads), steps);
            var p := Evidence(s.pcs[t]);
            && NotOurs(s.table, s.pcs[t].call.key)
            && p.tid == t && p.call == s.pcs[t].call
            && OpenedInThisCall(Init(threads), steps, t, p.sock)
            && ClearedBy(Init(threads), steps, p)
  {
    InitInv(threads);
    RunKeepsInv(Init(threads), steps);
    var s := Exec(AS_WRITTEN, Init(threads), steps);
    KnownWasCleared(Init(threads), steps, Evidence(s.pcs[t]));
    UsedWasOpened(Init(threads), steps, t, Evidence(s.pcs[t]).sock);
  }

  // ---------------------------------------------------------------- nonces are stable

  /** A step by which the client learns that a delete of `key` was accepted. */
  predicate DropsNonce(s: State, st: Step, key: Key) {
    && st.Own? && st.act.Commit? && st.t < |s.pcs| && s.pcs[st.t].InCommit?
    && s.pcs[st.t].call.key == key && s.pcs[st.t].call.lifetime == 0
  }

  ghost predicate NeverDrops(s: State, steps: seq<Step>, key: Key)
    requires Valid(AS_WRITTEN, s, steps)
    decreases |steps|
  {
    steps != [] ==>
      !DropsNonce(s, steps[0], key) && NeverDrops(Apply(AS_WRITTEN, s, steps[0]), steps[1..], key)
  }

  /**
   A stored nonce stays the nonce of its key, in the client and in every datagram of
   every goroutine, until a delete is accepted: no loss, refusal or retry changes it.
   */
  lemma NonceIsStable(s: State, steps: seq<Step>, key: Key)
    requires Reachable(AS_WRITTEN, s) && key in s.nonces
    requires Valid(AS_WRITTEN, s, steps) && NeverDrops(s, steps, key)
    ensures var s' := Exec(AS_WRITTEN, s, steps);
            && key in s'.nonces && s'.nonces[key] == s.nonces[key]
            && forall p :: p in s'.requests && p.call.key == key ==> p.nonce == s.nonces[key]
  {
    ReachableInv(s);
    NonceKept(s, steps, key);
  }

  lemma NonceKeptOnce(s: State, st: Step, key: Key)
    requires key in s.nonces && Enabled(s, st) && !DropsNonce(s, st, key)
    ensures var s' := Apply(AS_WRITTEN, s, st); key in s'.nonces && s'.nonces[key] == s.nonces[key]
  {
    if st.Own? {
      NonceKeptByAct(s, st.t, st.act, key);
    } else {
      assert Apply(AS_WRITTEN, s, st).nonces == s.nonces;
    }
  }

  lemma NonceKeptByAct(s: State, t: nat, act: Act, key: Key)
    requires key in s.nonces && t < |s.pcs| && CanAct(s, s.pcs[t], act) && !DropsNonce(s, Own(t, act), key)
    ensures var s' := ApplyAct(AS_WRITTEN, s, t, act); key in s'.nonces && s'.nonces[key] == s.nonces[key]
  {
  }

  lemma {:induction false} NonceKept(s: State, steps: seq<Step>, key: Key)
    requires Inv(s) && key in s.nonces
    requires Valid(AS_WRITTEN, s, steps) && NeverDrops(s, steps, key)
    ensures var s' := Exec(AS_WRITTEN, s, steps);
            && key in s'.nonces && s'.nonces[key] == s.nonces[key]
            && forall p :: p in s'.requests && p.call.key == key ==> p.nonce == s.nonces[key]
    decreases |steps|
  {
    if steps != [] {
      StepKeepsInv(s, steps[0]);
      NonceKeptOnce(s, steps[0], key);
      NonceKept(Apply(AS_WRITTEN, s, steps[0]), steps[1..], key);
    }
  }
}
