# Verified model of go-nat

This project models version 0.3.0 of the NAT traversal library go-nat, file by file after its Go
sources, and proves what the library is for: that a port mapping or firewall pinhole obtained
through it can always be given back, that what it reports about a mapping is true, that a
restarted gateway is noticed once, and that discovery settles on the right gateway.

`dafny verify dfyconfig.toml` checks everything.

## How it is put together

**One rule book for the PCP mapping protocol** (`MapRules.dfy`). A PCP server names a mapping by
the nonce it was created with and answers NOT_AUTHORIZED to any other (sections 11.3 and 15.1 of
RFC 6887). The server is the nonce-enforcing one of `pcp/client_test.go:104-145`, widened: it may
refuse any request, forget any mapping, restart with an empty table, and hold mappings that other
processes made. The property everything rests on is `Held`: the client holds the nonce of every
mapping of its own that the server has.

The comment at `pcp/client.go:253-263` says that a server treats a delete with an unknown nonce as
a no-op; the repository's own server answers NOT_AUTHORIZED when a mapping is there
(`pcp/client_test.go:127-131`). The model follows the latter, the comment at
`pcp/client.go:204-206`.

**The client twice.** `Threads.dfy` is a step system for any number of goroutines in
`addPortMappingWithHint`, with `c.mu`, the lock table, one socket per attempt, and a network that
loses, delays and duplicates datagrams. Its two switches are the design decisions that safety
rests on: `serialize` (the lock of `lockMapping`) and `prompt` (no request datagram reaches the
server after the exchange that sent it has ended, an assumption on the network).
`ThreadRuns.SafeExactlyAsWritten` proves that nothing is ever stranded exactly when both are on.
`Client.dfy` is the client as a class, one call at a time, exchanging actual bytes with a `Server`
object; all that network and server decide during a call is one `World` value, so a lemma over
all worlds is about every behaviour. Each method is proved equal to a specification function
(`MapCall`, `AnnounceCall`, `ExternalCall`) that knows no bytes; `CallRuns.MapCallIsRun` proves
that such a call is a run of the step system, begun in any reachable state in which `c.mu` is free
and nobody else is busy with that mapping, the other goroutines standing still meanwhile.
`CallResults.dfy` says what such a call puts on the wire, byte by byte, and what it returns for each
answer of the server and each fate of the attempts. For that the client keeps a history of its
requests (`sent`), which the source does not have.

**The dual-stack saga twice, as in the source.** `DualStack.dfy` is `pcp.NAT`, `PinholeWrapper.dfy`
is `natWithPCPIPv6`; both are built from `Client` objects. `SagaProofs.dfy` proves the IPv6 pinhole
report true of the IPv6 server's table, `GatewayRuns.dfy` proves the two implementations equivalent
over all sequences of calls, and for each of them, with one stack or two and over any IPv4 gateway,
that no sequence strands anything and that every restart noticed is reported once.

**Epoch arithmetic** (`Epoch.dfy`) is `updateEpochLocked` in 32-bit unsigned arithmetic, against
real-time clocks and against section 8.5 of RFC 6887. **The codec** is `Wire.dfy`. **Discovery** is
`Discovery.dfy` (the `select` loop, with Dafny's nondeterministic `if` standing for the arrival
order), `Merge.dfy` (the channel merge, stepwise) and `ServiceChoice.dfy` (ranked UPnP services).
**The UPnP port cache** is `Upnp.dfy`, against the history of the device's acknowledgements.

## Claims that do not hold, and when exactly they do

- Safety of the step system fails without `lockMapping` and fails if a datagram can outlive its
  exchange; with both it holds (`ThreadRuns.SafeExactlyAsWritten`).
- "A restarted server is always flagged" holds exactly under `Epoch.RestartShows`
  (`Epoch.RestartIsDetectedExactly`, for all inputs). It fails when the silence reaches the last
  epoch and sixteen times it less 32 seconds; when the last epoch is so near the end of the counter that the drop
  passes for a wrap; and when the last epoch was 0, against which nothing is checked.
- "The check is that of section 8.5 of RFC 6887" fails in exactly four cases (`Epoch.AgreesWithRfc`,
  for all inputs; `Epoch.Departures` has an input of each). The code makes no check against a remembered
  epoch of 0. It lets pass a drop that, given the silence, looks like a wrap of the counter. It flags a
  step back of exactly one second within a second. And it flags deltas of 2^32 - 2 seconds and more,
  where adding two seconds wraps.
- "The device has only the UPnP mappings that are in the cache" stops being true exactly when a call of
  an add takes effect, heard of or not, on a port that is not the one cached in the end, or the cached port
  is on the device and is replaced (`Upnp.AddLeavesOrphan`, an equivalence; `Upnp.OrphanExample` and
  `Upnp.LostAnswerExample` are an input of each kind). Deletes never cause it.
- "A delete of the client's own mapping that the server answers and does not refuse succeeds" fails
  exactly when what the server finds at the key at that moment has another nonce
  (`ClientProofs.DeleteSucceedsExactly`, an equivalence for every world). That needs another process
  to have taken the key since the delete began (`ClientProofs.DeliveredDelete`), as after a first
  datagram whose reply was lost (`ClientProofs.RetryFindsAnother`). Even then nothing of the client's
  own is left. While a mapping of an earlier process under another nonce is there, no delete succeeds.

## Model

| member | source | states |
|---|---|---|
| `MapRules.AnswerKeepsHeld` | pcp/client_test.go:125-140 | whatever the server does with a request that carries the stored nonce, the client still holds the nonce of every mapping of its own |
| `MapRules.OwnMappingIsAuthorized` | pcp/client_test.go:127-131 | a request about a mapping of the client's own is refused only for the server's own reasons, never NOT_AUTHORIZED |
| `MapRules.DeleteAnswer` | pcp/client_test.go:127-137 | SUCCESS to a delete if and only if it is not refused and any mapping there has its nonce; then nothing is left at the key; a refusal changes nothing; other keys are untouched |
| `Threads.StepKeepsInv` | pcp/client.go:54-251 | every step of any goroutine, the network, the server or another process keeps the whole invariant: `c.mu`, the lock table, the nonces, what is on the wire, and what an accepted delete means |
| `Threads.NeverStranded` | pcp/client.go:41-48 | in every reachable state the client holds the nonce of each of its mappings on the server, and no request in flight about one can be answered NOT_AUTHORIZED |
| `Threads.OneExchangePerMapping` | pcp/client.go:51-68 | at most one goroutine is inside `c.mu`, at most one past the lock of any mapping, and all requests on the wire for a mapping are one call's, with one nonce |
| `Threads.DeleteIsReal` | pcp/client.go:243-269 | when a delete is about to return nil, the server answered the very datagram whose reply was accepted, sent on a socket that this call opened, leaving nothing at the key; and no mapping of this client has come back since |
| `Threads.NonceIsStable` | pcp/client.go:199-213 | over any run without an accepted delete of the key, the stored nonce stays the same and every request on the wire for the key carries it |
| `ThreadRuns.SomeoneMoves` | pcp/client.go:51-68 | nobody waits inside `c.mu`; a call that cannot go on waits for one that can: the one inside `c.mu` or the exchange of the very same mapping, so distinct mappings never wait for each other |
| `ThreadRuns.CallsAreBounded` | pcp/client.go:353-389 | each own step of a call lowers a rank of at most 16 and touches no other goroutine, so no call livelocks, retries included |
| `ThreadRuns.DeleteIsAvailable` | pcp/client.go:253-269 | from every reachable state where nobody is busy with a mapping of ours, a delete can run to completion that removes mapping and nonce |
| `ThreadRuns.DeleteOvertakesCreate` | pcp/client.go:44-48 | without the mapping lock there is a run that leaves a mapping whose nonce the client no longer has |
| `ThreadRuns.CreateOutlivesExchange` | pcp/client.go:353-453 | with the lock, but with datagrams that outlive their exchange, there is such a run too |
| `ThreadRuns.SafeExactlyAsWritten` | pcp/client.go:44-68 | every reachable state is safe if and only if calls are serialized per mapping and datagrams do not outlive exchanges |
| `CallRuns.MapCallIsRun` | pcp/client.go:161-251 | one whole call of the `Client` class, in every world, is a run of one goroutine of the step system, ending with the same nonces and the same server table |
| `Client.Server.Handle` | pcp/client_test.go:78-148 | the byte-level server changes its table and replies as the rule book says for the request it decodes, and ignores everything else |
| `Client.Client.constructor` | pcp/client.go:75-90 | a new client has no address, no epoch and no nonces |
| `Client.Client.SetLocalIP` | pcp/client.go:92-103 | stores the unmapped address |
| `Client.Client.AddPortMappingWithHint` | pcp/client.go:161-251 | bytes, retries, noise and reply checks together do to client, requests sent and server exactly what the wire-free `MapCall` does, and return its result; what that is say the laws of `CallResults` |
| `CallResults.ArgumentsAreChecked` | pcp/client.go:162-194 | which arguments get as far as the network, and which error each of the others gets, in that order |
| `CallResults.ArgumentsAreAsked` | pcp/client.go:174-203 | protocol number, port, stored or fresh nonce, and whole seconds of lifetime, or 7200 if they come to none |
| `CallResults.MapCallAsks` | pcp/client.go:215-217 | a call that gets as far as the network makes one request, and every byte of it: the client's address, and the suggested port and address or the default of the family |
| `CallResults.AddAsks` | pcp/client.go:142-145 | an add suggests the internal port and no address |
| `CallResults.DeleteAsks` | pcp/client.go:264-269 | a delete asks for lifetime 0 and suggests neither port nor address; its error wraps the call's |
| `CallResults.MapCallAnswered` | pcp/client.go:222-250 | an answered call succeeds if and only if the server does not refuse and the nonces match; every field of the response is the one echoed or the server's; otherwise NOT_AUTHORIZED or the server's code; the server's table afterwards; and what the client remembers |
| `CallResults.MapCallUnanswered` | pcp/client.go:217-235 | noise, an ended context and four unanswered attempts each give their own error and leave the client's memory as it was |
| `Client.Client.ExchangeMap` | pcp/client.go:215-241 | building, sending, parsing and checking come to the server's own verdict on what was asked; no packet but the server's reply is accepted |
| `Client.Client.SendRequest` | pcp/client.go:353-389 | the request is made once, with the effect and result of at most four attempts; it takes at most four time limits plus 23.1 seconds of waits, and at least 18.9 seconds if it fails for want of an answer |
| `Client.Client.SendOnce` | pcp/client.go:400-453 | one attempt on its own socket: which outcomes end the exchange and what each returns |
| `ClientProofs.FirstOutcomeCounts` | pcp/client.go:359-389 | the first of four attempts that is answered or cut short decides the request; it fails for want of an answer if and only if all four go unanswered |
| `Client.Client.DeletePortMapping` | pcp/client.go:253-269 | a delete is a MAP call with lifetime 0 and no preference, its error wrapped |
| `Client.Client.GetExternalAddress` | pcp/client.go:271-296 | the cached address without traffic, or that of a temporary mapping which is then deleted |
| `CallResults.ExternalAddressIs` | pcp/client.go:271-296 | the cached address without traffic, or that granted with a one-second UDP mapping on a port in the dynamic range drawn from the clock, which is then deleted whatever comes of that |
| `Client.Client.Announce` | pcp/client.go:113-140 | byte-level announce equals the wire-free `AnnounceCall`, requests sent included |
| `CallResults.AnnounceAsks` | pcp/client.go:115-122 | without an address or a gateway an announce fails without traffic; otherwise it makes one request, byte by byte |
| `CallResults.AnnounceAnswered` | pcp/client.go:127-140 | an answered announce returns the server's epoch if it is no refusal, and the server's code if it is; only a success moves the epoch |
| `CallResults.AnnounceMemory` | pcp/client.go:115-140 | however it ends, an announce changes nothing else that the client remembers |
| `CallResults.AnnounceUnanswered` | pcp/client.go:121-134 | the result for noise, an ended context and no answer; an ANNOUNCE has no nonce, so any well-formed reply is believed |
| `CallResults.AnnounceReaches` | pcp/client.go:113-140 | an announce succeeds if and only if the world lets it: the first decided attempt brings a reply that is no refusal |
| `Client.Client.UpdateEpochLocked` | pcp/client.go:315-343 | the stepwise update returns the verdict of `Epoch.Verdict` and keeps the flag until it is read |
| `Epoch.VerdictIsInSeconds` | pcp/client.go:327-338 | the verdict is about the whole seconds between the two readings of the clock; there is none before a first response |
| `Epoch.JudgedAgainstPrevious` | pcp/client.go:327-342 | over any run, each response is judged against the epoch and the time of the one before it |
| `Epoch.NoFalseAlarmOverTime` | pcp/client.go:317-338 | no false alarm, for the server's clock and the nanoseconds of the client's |
| `Epoch.RestartIsDetectedOverTime` | pcp/client.go:317-343 | restart detection, exactly, for the nanoseconds of the client's clock |
| `Client.Client.EpochStateLost` | pcp/client.go:306-313 | reading returns the flag and clears it, and nothing else |
| `Client.Client.CacheExternalIPLocked` | pcp/client.go:345-351 | only a valid, specified address replaces the cached one |
| `Client.JitterBounds` | pcp/client.go:391-398 | the jittered wait lies between 0.9 and 1.1 times the nominal one |
| `Client.JitterSpread` | pcp/client.go:391-398 | the byte drawn spreads the wait evenly over that range, ends included |
| `Client.LifetimeSeconds` | pcp/client.go:179-187 | 0 if and only if the requested lifetime is not positive, 7200 below a second, and otherwise whole seconds |
| `Client.NoiseIsRejected` | pcp/client.go:222-229 | no packet other than the server's reply parses with the request's nonce |
| `ClientProofs.MapCallKeepsHeld` | pcp/client.go:196-251 | no MAP call strands a mapping, whatever is lost, refused, expired or restarted and however the call ends |
| `ClientProofs.MapCallNonces` | pcp/client.go:199-249 | a create always stores the nonce it sends, a delete drops one exactly when it succeeds, bad arguments change nothing |
| `ClientProofs.DeleteCallIsReal` | pcp/client.go:253-269 | a delete that returns nil leaves no mapping of ours at the key and no nonce |
| `ClientProofs.DeleteSucceedsExactly` | pcp/client.go:253-269 | for every behaviour of network and server: a delete with good arguments succeeds if and only if some attempt is answered, none before it being cut short, the server does not refuse it, and what it finds at the key then, if anything, has the nonce sent |
| `ClientProofs.DeliveredDelete` | pcp/client.go:253-269 | an answered, unrefused delete leaves no mapping of ours, whatever was lost, duplicated, expired or restarted before the answer; if what was there was ours or nothing, it fails only if another process takes the key meanwhile, and then with NOT_AUTHORIZED |
| `ClientProofs.RetryFindsAnother` | pcp/client.go:253-269 | a run in which one does: the first datagram deletes, its reply is lost, the key is taken, and the retry is refused |
| `ClientProofs.ExternalCallKeepsHeld` | pcp/client.go:271-296 | the temporary mapping strands nothing, even when its delete fails |
| `ClientProofs.ExternalAddressIsKept` | pcp/client.go:271-296 | after a success with a usable address later calls answer without traffic, from the cache; an answered, unrefused delete, on whichever attempt, leaves no temporary mapping of ours |
| `ClientProofs.AnnounceKeepsHeld` | pcp/client.go:113-140 | an announce changes no nonce and strands nothing |
| `DualStack.NAT.AddPortMapping` | pcp/nat.go:144-189 | both clients, both servers and the pinhole report end as `NatAdd` says: v6-only, v4-only, both, and the rollback after a failed v4 |
| `DualStack.NAT.DeletePortMapping` | pcp/nat.go:201-237 | both deletes are made; the v4 result is returned and the v6 one reported |
| `DualStack.NAT.CheckServerHealth` | pcp/nat.go:239-289 | epoch, verdict and error of one or two announces; a flag is consumed only on a stack that answered |
| `DualStack.NAT.GetExternalAddress` | pcp/nat.go:77-109 | asks the primary client only, or fails when there is none |
| `DualStack.NAT.SetPinholeErr` | pcp/nat.go:135-142 | records the error under its prefix, or success |
| `PinholeWrapper.NatWithPCPIPv6.AddPortMapping` | pcp_ipv6.go:78-100 | the wrapper's add over a v4-only pcp.NAT or any other gateway, with rollback, ends as `WrapAdd` says |
| `PinholeWrapper.NatWithPCPIPv6.DeletePortMapping` | pcp_ipv6.go:112-127 | likewise for delete: the inner result is returned, the pinhole's reported |
| `PinholeWrapper.NatWithPCPIPv6.CheckServerHealth` | pcp_ipv6.go:129-173 | likewise for health, with and without a health check underneath |
| `PinholeWrapper.NatWithPCPIPv6.SetIPv6PinholeError` | pcp_ipv6.go:72-76 | records the wrapped error or success |
| `SagaProofs.ClientErrorsAreTheirOwn` | pcp/nat.go:176-184 | no client error can be mistaken for "rolled back" or "left open" |
| `SagaProofs.AcceptedAddEstablishes` | pcp/nat.go:158-188 | an accepted add is on the server, ours, under the nonce the client holds, unless between the deciding answer and the end of the call the server restarted, expired this mapping, or had it unmapped by its nonce |
| `SagaProofs.RollbackIsTrue` | pcp/nat.go:191-199 | a rollback reported done left no mapping of ours; one reported failed kept the nonce, so that any later answered, unrefused delete, on whichever attempt, leaves nothing of ours, and succeeds unless another process has or takes the key |
| `SagaProofs.PinholeOutcomeIsTrue` | pcp/nat.go:172-188 | for any v4 outcome: no report if and only if both accepted, a rollback report if and only if v4 failed after v6 accepted, otherwise v6's own error; each true of the v6 server |
| `SagaProofs.NatReportIsTrue` | pcp/nat.go:148-199 | the port returned and the pinhole report of a dual-stack `pcp.NAT` are true of the two servers |
| `SagaProofs.SoloReportIsTrue` | pcp/nat.go:149-156 | with one stack the caller's result is that stack's, and over IPv6 the pinhole report says the same |
| `SagaProofs.NatDeleteIsTrue` | pcp/nat.go:201-237 | a nil error means nothing of ours is left at the key on the primary server, a nil pinhole report the same on the IPv6 server; an error keeps the nonce |
| `SagaProofs.WrapperDeleteIsTrue` | pcp_ipv6.go:112-127 | the same for the wrapper, whatever gateway is underneath |
| `SagaProofs.AddCallsMade` | pcp/nat.go:148-189 | an add asks each stack once, for the caller's protocol, port and lifetime with that port suggested, and deletes an opened pinhole if and only if IPv4 failed |
| `SagaProofs.WrapperAddCallsMade` | pcp_ipv6.go:78-100 | the same for the wrapper |
| `SagaProofs.DeleteCallsMade` | pcp/nat.go:205-237 | a delete asks each stack once, in both implementations |
| `SagaProofs.ExternalIsPrimary` | pcp/nat.go:77-109 | the external address is the IPv4 client's, the IPv6 client's if it is alone, and an error without either |
| `SagaProofs.WrapperReportIsTrue` | pcp_ipv6.go:78-110 | the pinhole report of the wrapper is true, whatever gateway is underneath, and the caller gets that gateway's own answer: the port of a gateway that is no pcp.NAT as it is, that of a pcp.NAT true of its server |
| `GatewayRuns.SameText` | pcp/nat.go:282-284 | the two ways of joining the two announce errors give the same text and the same causes |
| `GatewayRuns.CallsAreSeen` | pcp_ipv6.go:66-173 | what the caller sees of each call on either implementation is what that call returns |
| `GatewayRuns.RunIsItsCalls` | pcp_ipv6.go:66-173 | over a sequence of calls, each is seen as made in the state the ones before it left |
| `GatewayRuns.StepsAreAlike` | pcp_ipv6.go:78-173 | one call on either implementation, from alike states, leaves alike states and shows the caller the same |
| `GatewayRuns.GatewaysAreEquivalent` | pcp_ipv6.go:38-173 | no sequence of add, delete, health, address and pinhole-error calls tells the implementations apart, and both leave the clients and servers in the same states |
| `GatewayRuns.RunKeepsHeld` | pcp/nat.go:144-289 | after any sequence of calls on a `pcp.NAT` of one stack or two, the nonce of every mapping and pinhole of ours is held, so each can still be deleted |
| `GatewayRuns.WrapRunKeepsHeld` | pcp_ipv6.go:78-173 | the same for the wrapper, whatever gateway is underneath |
| `GatewayRuns.HealthReportsEveryRestart` | pcp/nat.go:239-289 | after any calls, with one stack or two, a health check gives the epoch of IPv4 if it answered, reports a restart if and only if a stack it reaches has one pending, fails if and only if it reaches none, and what is pending on an unreached stack stays pending |
| `GatewayRuns.PlainHealthReportsEveryRestart` | pcp_ipv6.go:129-173 | the same for the wrapper over a gateway without a health check: the epoch, the restarts and the failures of the IPv6 stack alone |
| `GatewayRuns.HealthErrors` | pcp/nat.go:272-285 | the error of a failed health check shows the cause of every stack that was tried, in order |
| `Epoch.StateLostMeaning` | pcp/client.go:321-337 | for all inputs, the 32-bit arithmetic means that one delta exceeds the other by more than 16/15, beyond two seconds, or that a delta is so large that adding two seconds wraps |
| `Epoch.RestartIsDetectedExactly` | pcp/client.go:317-343 | for every last epoch and every silence, each epoch a restarted server can show is flagged if and only if the silence is too short for the new epoch to have caught up at an acceptable rate, and too short for the drop to pass for a wrap of the counter (`RestartShows`) |
| `Epoch.HiddenRestart` | pcp/client.go:317-343 | outside that condition, an epoch of a restarted server that is not flagged |
| `Epoch.MissedRestarts` | pcp/client.go:317-343 | an input for each way to miss one: a server that had run for a minute, and a counter about to wrap |
| `Epoch.RestartIsDetected` | pcp/client.go:317-343 | corollary for ordinary operation, last epochs from 3 to 2^31 and silences under 2^30 seconds: flagged while the silence is below 16 times the last epoch less 32 |
| `Epoch.RestartBoundIsSharp` | pcp/client.go:327-338 | for a restart right after the last response, once the new epoch has caught up, that bound is exact, for every last epoch and silence |
| `Epoch.NoFalseAlarm` | pcp/client.go:321-337 | clocks that agree within a factor 16/15 over less than 2^32 - 3 seconds never raise the flag, even across a wrap of the counter |
| `Epoch.AgreesWithRfc` | pcp/client.go:321-337 | for all inputs, the verdict is that of section 8.5 of RFC 6887 if and only if none of four conditions on the two epochs and the silence holds (`Departs`) |
| `Epoch.Departures` | pcp/client.go:321-337 | an input for each of the four, and which side finds a loss there |
| `Epoch.FlagIsConserved` | pcp/client.go:306-343 | after any run of responses and reads the flag is up if and only if a response since the last read was judged a loss |
| `Wire.BuildAnnounceRequest` | pcp/protocol.go:142-150 | filling the buffer in place gives the ANNOUNCE layout |
| `Wire.BuildMapRequest` | pcp/protocol.go:152-181 | filling the buffer in place gives the MAP layout, with the default suggestion of the client's address family |
| `Wire.AddrRoundTrip` | pcp/protocol.go:129-140 | writing and reading an address back unmaps it and drops its zone, and nothing else |
| `Wire.AddrTo16Injective` | pcp/protocol.go:129-135 | two addresses have the same 16 bytes if and only if they are the same after unmapping |
| `Wire.AddressBytes` | pcp/protocol.go:129-135 | the 16 bytes of each kind of address |
| `Wire.CanonicalAddress` | pcp/protocol.go:137-140 | which address is read back: IPv4 out of its mapped form, everything else without zone |
| `Wire.IntegersAreBigEndian` | pcp/protocol.go:159-167 | integers are written and read most significant byte first |
| `Wire.MapRequestOnTheWire` | pcp/protocol.go:152-181 | every byte of a MAP request, reserved ones included, with the all-zeros address of the client's family for no suggestion |
| `Wire.AnnounceRequestOnTheWire` | pcp/protocol.go:142-150 | every byte of an ANNOUNCE request |
| `Wire.ParsedFields` | pcp/protocol.go:183-229 | which replies are accepted, and which field is taken from which byte |
| `Wire.DecodeBuiltRequest` | pcp/client_test.go:104-111 | the server reads out of a built request the key, nonce and lifetime that were put in |
| `Wire.MapRequestInjective` | pcp/protocol.go:152-181 | two built requests are equal bytes if and only if all fields agree after address mapping and the default |
| `Wire.ParseBuiltReply` | pcp/protocol.go:208-229 | a genuine MAP reply parses to the echoed nonce, protocol and port and the server's epoch, code, port and address |
| `Wire.ParseBuiltAnnounceReply` | pcp/protocol.go:183-206 | a genuine ANNOUNCE reply parses to the server's code and epoch |
| `Wire.ParseMapResponseExact` | pcp/protocol.go:183-229 | exactly the long enough version-2 replies are accepted, and two mean the same if and only if their significant bytes agree |
| `Discovery.SelectGateway` | nat.go:124-179 | confluence: for every order in which ready channels are taken, the result is the right choice among all the probes deliver, or among all there is to receive by the time the context's case is taken, up to a single fallback whose sender gives up. The right choice is the first PCPv4 gateway, else the first fallback, else not found with the context's state, and either gateway is wrapped if and only if there is a PCPv6 client |
| `Discovery.Drain` | nat.go:149-168 | the non-blocking loop ends and receives all there is to receive, except a fallback that is withdrawn |
| `Discovery.GatewaySelection.KeepPCPv4` | nat.go:188-192 | a receive from a closed channel changes nothing |
| `Discovery.GatewaySelection.KeepPCPv6` | nat.go:194-198 | likewise |
| `Discovery.GatewaySelection.KeepFallback` | nat.go:200-206 | the first fallback stays |
| `Discovery.GatewaySelection.Gateway` | nat.go:208-220 | PCPv4, else the fallback, else not found; wrapped if and only if there is a PCPv6 client |
| `Merge.StepConserves` | nat.go:87-104 | at each step a source's items are what was emitted of it, then what its worker holds, then what is unread |
| `Merge.MergeIsOrdered` | nat.go:78-112 | in every run each source comes out as a prefix, in order; the output closes only after all workers; closed without cancellation it holds everything |
| `Merge.MergeIsAnyShuffle` | nat.go:78-112 | the possible finished outputs are exactly the shuffles of the sources |
| `Upnp.ReplayIsLastAcked` | upnp.go:454-473 | replaying the acknowledged calls knows a key, with port e, if and only if the key's last acknowledged call was an add with e |
| `Upnp.UpnpNat.constructor` | upnp.go:475-482 | an empty cache for a device without history |
| `Upnp.UpnpNat.AddPortMapping` | upnp.go:512-546 | the cache remains the replay of the device's acknowledgements with all ports in [10000, 65534]; the calls made are those of `AddCalls`; success if and only if the last was acknowledged |
| `Upnp.UpnpNat.TryNewPorts` | upnp.go:536-545 | the loop of up to three new ports, stopping at the first accepted |
| `Upnp.AddCallsShape` | upnp.go:529-545 | an add makes one to four calls: the cached port first, then one for each port drawn, in order; it stops at the first acknowledged, and makes them all if none is |
| `Upnp.UpnpNat.DeletePortMapping` | upnp.go:548-571 | nothing is sent for an unknown key; otherwise the delete names the cached port, and the entry goes if and only if the device confirms |
| `Upnp.RandomPort` | nat.go:227-231 | a random port is never 0 and never 65535 |
| `Upnp.KnownProtocols` | upnp.go:501-510 | which protocol names are known, and what they become |
| `Upnp.KeyOf` | upnp.go:524 | the key's port is the internal port modulo 65536 |
| `Upnp.AddLeavesOrphan` | upnp.go:529-545 | an add leaves a forgotten mapping on the device if and only if one of its calls took effect, heard of or not, on a port other than the one cached in the end, or the port cached before was there and was replaced |
| `Upnp.CachedAfterAdd` | upnp.go:529-545 | the port cached in the end is that of the last call if it was acknowledged, and otherwise the one cached before |
| `Upnp.DeleteLeavesNoOrphan` | upnp.go:548-571 | a delete leaves none, whatever becomes of it |
| `Upnp.OrphanExample` | upnp.go:529-545 | a refused renewal and a different accepted port do so |
| `Upnp.LostAnswerExample` | upnp.go:536-543 | so does, with nothing cached, a try whose answer is lost before one that is acknowledged |
| `ServiceChoice.NatFromLocation` | upnp.go:377-408 | filter, stable sort and probing return the usable service of highest rank, first in the document among equals, or fail if and only if there is none |
| `ServiceChoice.RankedServices` | upnp.go:390-395 | all services of a known kind and no others, in document order |
| `ServiceChoice.RankOrder` | upnp.go:70-76 | the order of preference of the three service types; no other is ranked |
| `ServiceChoice.StableSortSorts` | upnp.go:396-398 | the stable sort orders by rank and, within a rank, by document order |
| `ServiceChoice.FirstUsableIsBest` | upnp.go:400-405 | in that order the first that works is the best of all |
| `ServiceChoice.Visit` | upnp.go:264-282 | one search's locations: the first good one is found, or all are visited and none is good; no description is fetched twice |
| `ServiceChoice.DiscoverUnicast` | upnp.go:243-286 | the visited set does not change the outcome: the first location, over all searches in order, that names the gateway and works; the context's error if and only if it ended the search |
| `ServiceChoice.FlattenIsConcatenation` | upnp.go:254-264 | the locations of all searches, each in its place |
| `ServiceChoice.FlattenIsNothingElse` | upnp.go:254-264 | and no others |

## Left out

- The code behind sockets, DNS, routes, SSDP, SOAP, NAT-PMP and goupnp: every result of it is an arbitrary value here.
- Forged packets that carry the request's nonce: noise is arbitrary bytes, but nobody except the server knows the nonce. A forged ANNOUNCE reply is not excluded.
- Threads.NeverStranded: assumes that no request datagram reaches the server after the exchange that sent it has ended; `ThreadRuns.CreateOutlivesExchange` shows the assumption is needed, and the source cannot enforce it.
- Client.JitterBounds: exact reals instead of float64; the byte drawn is arbitrary.
- Client.Client.UpdateEpochLocked: the elapsed time is a whole number of nanoseconds of a monotonic clock, floored to seconds exactly; float64 rounding in Duration.Seconds is not modelled, and more than 2^32 seconds are reduced modulo 2^32, which Go leaves to the implementation.
- Client.LifetimeSeconds: a lifetime beyond the range of uint32 is reduced modulo 2^32, which Go leaves to the implementation.
- Client.Client.SendRequest: time bounds are for the request alone; `lock.Lock()` at `pcp/client.go:66` ignores the context, so there is none for a whole call. Deadlines appear as attempts that fail because the context is done.
- ThreadRuns.DeleteIsAvailable: says that the completing run exists from every such state; that the network in fact delivers is not promised by the source.
- Threads.StepKeepsInv: the other critical sections of `c.mu` (`LastEpoch`, `SetLocalIP`, the cached address) touch neither nonces nor locks and are not steps.
- DualStack.NAT.AddPortMapping: the two goroutines work on disjoint clients and servers, so they are written one after the other; that the rollback's context is detached from the caller's is seen only in its outcome being independent of the rest.
- DualStack.NAT.CheckServerHealth: written in sequence for the same reason.
- GatewayRuns.GatewaysAreEquivalent: `Type()` differs by design and is not compared; the wording inside a client's own error is one opaque piece, the same on both sides.
- GatewayRuns.RunKeepsHeld: one call at a time on the gateway; concurrent calls on one mapping are the subject of `Threads`.
- Client.Server.Handle: the table is keyed by protocol and port alone, as in the test server; on a server that also keys by the client's address, mappings made before `SetLocalIP` changes the address are out of reach afterwards.
- DualStack.NAT.GetExternalAddress: the temporary port may coincide with a mapped UDP port, in which case that mapping is deleted with it; it is treated as an ordinary add and delete.
- Discovery.SelectGateway: without a deadline the call requires that the probes it waits for answer or close, as otherwise the Go code waits for ever; an item counts as there to receive if it is at the last non-blocking look; a fallback that is ready may still be withdrawn by its sender after cancellation, since that channel is unbuffered (`nat.go:79`).
- ServiceChoice.StableSortSorts: `sort.SliceStable` is modelled by stable insertion on a sequence rather than in place on the slice.
- ServiceChoice.DiscoverUnicast: whether a location names the gateway, and whether probing it works, are functions of the location; URL parsing is not modelled.
- Upnp.UpnpNat.AddPortMapping: the mutex of `upnp_NAT` is held for the whole call, so calls are modelled one at a time; leases that run out and devices that reboot only take mappings away and are not modelled, nor are keys that compete for one external port; lifetimes and descriptions are not recorded.
- `natpmp.go`, `pcp.go`, `gateway.go`, `pcp/gateway_discoverer.go`, `discoverPCP`, result-code texts and the examples: they look things up or pass calls on, and what they look up (routes, devices, clocks) is outside the model. The NAT-PMP cache is keyed by port alone and its delete never reaches the device, so it promises no coherence that could be proved.
