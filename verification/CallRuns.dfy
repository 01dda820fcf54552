/**
 The two models of the client meet: a MAP call as the `Client` class makes it, bytes,
 retries, noise and all, is one run of a single goroutine of the step system. It starts in
 any reachable state in which `c.mu` is free and nobody is past the lock of the same mapping,
 and the other goroutines stand still meanwhile. So the theorems of `Threads` are about the
 code of `Client`.
 */
module CallRuns {
  import opened Basics
  import opened MapRules
  import opened Wire
  import C = Client
  import opened Threads
  import opened ThreadRuns

  /** The step of the system that a happening on the server is. */
  function AsStep(p: Packet, h: C.Happening): Step {
    match h
    case Arrives(ans) => Serve(p, ans.refusal)
    case Expires(key) => Expire(key)
    case Restarts => Restart
    case OtherMaps(key, nonce) => OtherMaps(key, nonce)
    case OtherUnmaps(key, nonce) => OtherUnmaps(key, nonce)
  }

  function About(p: Packet): Option<Decoded> {
    Some(Decoded(p.call.key, p.nonce, p.call.lifetime))
  }

  /** `s'` is `s` after the server went through something; replies may have been sent. */
  predicate ServerMoved(s: State, s': State, table: Table) {
    s' == s.(table := table, replies := s'.replies) && s.replies <= s'.replies
  }

  lemma HappeningIsStep(rules: Rules, origin: State, s: State, p: Packet, h: C.Happening) returns (s': State)
    requires Leads(rules, origin, s) && p in s.requests
    ensures Leads(rules, origin, s') && ServerMoved(s, s', C.AfterOne(s.table, About(p), h))
  {
    s' := Advance(rules, origin, s, AsStep(p, h));
  }

  lemma {:induction false} HappeningsAreSteps(rules: Rules, origin: State, s: State, p: Packet, hs: seq<C.Happening>)
    returns (s': State)
    requires Leads(rules, origin, s) && p in s.requests
    ensures Leads(rules, origin, s') && ServerMoved(s, s', C.After(s.table, About(p), hs))
    decreases |hs|
  {
    if hs == [] {
      s' := s;
    } else {
      var s1 := HappeningIsStep(rules, origin, s, p, hs[0]);
      s' := HappeningsAreSteps(rules, origin, s1, p, hs[1..]);
    }
  }

  /** The goroutine is in its exchange, at attempt `i`, with no socket open. */
  predicate AtAttempt(s: State, t: nat, call: Call, nonce: Nonce, i: nat) {
    && t < |s.pcs| && s.pcs[t].Exchange? && s.pcs[t].call == call && s.pcs[t].nonce == nonce
    && s.pcs[t].attempt == i && s.pcs[t].sock.None? && s.mu.None?
  }

  /** The exchange is over, accepted or not, and nothing else of the client has moved. */
  predicate Over(s: State, s': State, t: nat, call: Call, accepted: bool) {
    && t < |s'.pcs| && s'.nonces == s.nonces && s'.mu == s.mu
    && if accepted then s'.pcs[t].WantCommit? && s'.pcs[t].call == call else s'.pcs[t].Leaving?
  }

  function IsSuccess(o: C.Outcome): bool {
    o.Replied? && o.code == SUCCESS
  }

  /** Everything of one attempt up to the moment its outcome is decided. */
  lemma AttemptIsSteps(rules: Rules, origin: State, s: State, t: nat, call: Call, nonce: Nonce, i: nat, a: C.Attempt)
    returns (s': State, p: Packet)
    requires Leads(rules, origin, s) && t < |s.pcs| && AtAttempt(s, t, call, nonce, i)
    ensures var once := C.TryOnce(s.table, Some(Decoded(call.key, nonce, call.lifetime)), a);
            && Leads(rules, origin, s') && s'.table == once.table && s'.nonces == s.nonces && s'.mu == s.mu
            && t < |s'.pcs| && s'.pcs[t] == s.pcs[t].(sock := Some(p.sock)) && p.call == call && p.nonce == nonce
            && (a.fate.Served? ==> Reply(p, once.outcome.value.code) in s'.replies)
  {
    var s1 := AdvanceOwn(rules, origin, s, t, OpenSocket);
    p := Packet(s.nextSock, t, call, nonce);
    var s2 := HappeningsAreSteps(rules, origin, s1, p, a.before);
    var s3 := s2;
    if a.fate.Served? {
      s3 := Advance(rules, origin, s2, Serve(p, a.fate.ans.refusal));
    }
    s' := HappeningsAreSteps(rules, origin, s3, p, a.after);
  }

  lemma GivesUp(rules: Rules, origin: State, s: State, t: nat, call: Call) returns (s': State)
    requires Leads(rules, origin, s) && t < |s.pcs| && s.pcs[t].Exchange?
    ensures Leads(rules, origin, s') && s'.table == s.table && Over(s, s', t, call, false)
  {
    s' := AdvanceOwn(rules, origin, s, t, GiveUp);
  }

  lemma HearsReply(rules: Rules, origin: State, s: State, t: nat, p: Packet, code: byte) returns (s': State)
    requires Leads(rules, origin, s) && t < |s.pcs| && s.pcs[t].Exchange? && s.pcs[t].sock == Some(p.sock)
    requires p.call == s.pcs[t].call && p.nonce == s.pcs[t].nonce && Reply(p, code) in s.replies
    ensures Leads(rules, origin, s') && s'.table == s.table && Over(s, s', t, p.call, code == SUCCESS)
  {
    s' := AdvanceOwn(rules, origin, s, t, Receive(Reply(p, code)));
  }

  lemma TriesAgain(rules: Rules, origin: State, s: State, t: nat, call: Call, nonce: Nonce, i: nat) returns (s': State)
    requires Leads(rules, origin, s) && i + 1 < MAX_RETRIES && t < |s.pcs| && s.pcs[t].Exchange? && s.mu.None?
    requires s.pcs[t].call == call && s.pcs[t].nonce == nonce && s.pcs[t].attempt == i
    ensures Leads(rules, origin, s') && AtAttempt(s', t, call, nonce, i + 1)
    ensures s'.table == s.table && s'.nonces == s.nonces
  {
    s' := AdvanceOwn(rules, origin, s, t, AttemptFails);
  }

  lemma {:induction false} TravelIsRun(rules: Rules, origin: State, s: State, t: nat, call: Call, nonce: Nonce,
                                       attempts: seq<C.Attempt>, i: nat)
    returns (s': State)
    requires Leads(rules, origin, s) && i < MAX_RETRIES && AtAttempt(s, t, call, nonce, i)
    ensures var tr := C.Travel(s.table, Some(Decoded(call.key, nonce, call.lifetime)), attempts, i);
            Leads(rules, origin, s') && s'.table == tr.table && Over(s, s', t, call, IsSuccess(tr.outcome))
    decreases MAX_RETRIES - i
  {
    var a := C.AttemptAt(attempts, i);
    var once := C.TryOnce(s.table, Some(Decoded(call.key, nonce, call.lifetime)), a);
    var s1, p := AttemptIsSteps(rules, origin, s, t, call, nonce, i, a);
    if a.fate.Served? {
      s' := HearsReply(rules, origin, s1, t, p, once.outcome.value.code);
    } else if a.fate.Unanswered? && i + 1 < MAX_RETRIES {
      var s2 := TriesAgain(rules, origin, s1, t, call, nonce, i);
      s' := TravelIsRun(rules, origin, s2, t, call, nonce, attempts, i + 1);
    } else {
      s' := GivesUp(rules, origin, s1, t, call);
    }
  }

  /** The call the step system sees. */
  function CallOf(c: C.ClientState, a: C.MapArgs, w: C.World): Call
    requires C.CheckArgs(c, a, w).None?
  {
    Call(C.KeyOf(a.protocol, a.internalPort), C.LifetimeSeconds(a.lifetime), w.candidate.value)
  }

  /**
   A call that gets as far as the network takes the client's nonces and the server's
   table, in any reachable state in which nobody else is busy with the mapping, exactly
   where a run of the step system takes them.
   */
  lemma MapCallIsRun(s: State, t: nat, c: C.ClientState, a: C.MapArgs, w: C.World)
    requires Reachable(AS_WRITTEN, s) && c.nonces == s.nonces && c.gateway
    requires C.CheckArgs(c, a, w).None? && Quiescent(s, t, CallOf(c, a, w).key)
    ensures var m := C.MapCall(c, s.table, a, w);
            exists s' :: && Leads(AS_WRITTEN, s, s') && Reachable(AS_WRITTEN, s')
                         && s'.nonces == m.client.nonces && s'.table == m.table
                         && t < |s'.pcs| && s'.pcs[t].Idle?
  {
    ReachableInv(s);
    var call := CallOf(c, a, w);
    var d := C.Asked(c, a, w);
    var s1 := GetsLock(s, t, call);
    var s2 := AdvanceOwn(AS_WRITTEN, s, s1, t, EnterNonce);
    var s3 := AdvanceOwn(AS_WRITTEN, s, s2, t, PickNonce);
    var s4 := TravelIsRun(AS_WRITTEN, s, s3, t, call, d.nonce, w.attempts, 0);
    var s5 := s4;
    if s4.pcs[t].WantCommit? {
      s5 := Commits(AS_WRITTEN, s, s4, t);
    }
    var s6 := AdvanceOwn(AS_WRITTEN, s, s5, t, Leave);
    ReachableFurther(s, s6);
  }

  lemma ReachableFurther(s: State, end: State)
    requires Reachable(AS_WRITTEN, s) && Leads(AS_WRITTEN, s, end)
    ensures Reachable(AS_WRITTEN, end)
  {
    var threads: nat, steps: seq<Step> :| Valid(AS_WRITTEN, Init(threads), steps)
                                        && s == Exec(AS_WRITTEN, Init(threads), steps);
    LeadsThrough(AS_WRITTEN, Init(threads), steps, end);
  }
}
