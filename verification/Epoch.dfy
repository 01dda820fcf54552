/**
 Restart detection from the server's epoch: section 8.5 of RFC 6887 as
 `updateEpochLocked` computes it in 32-bit unsigned arithmetic.
 */
module Epoch {
  import opened Basics

  function Wrap(x: int): uint32 {
    x % TWO_TO_THE_32
  }

  /** The verdict on a new epoch, `clientDelta` whole seconds after `last` was received. */
  predicate StateLost(last: uint32, clientDelta: uint32, newEpoch: uint32) {
    var serverDelta := Wrap(newEpoch - last);
    || Wrap(clientDelta + 2) < serverDelta - serverDelta / 16
    || Wrap(serverDelta + 2) < clientDelta - clientDelta / 16
  }

  /** Taking off a sixteenth, rounded down, leaves fifteen sixteenths, rounded up. */
  lemma FifteenSixteenths(n: int, s: nat)
    ensures n < s - s / 16 <==> 16 * n < 15 * s
  {
    var q, r := s / 16, s % 16;
    assert s == 16 * q + r;
  }

  /** One delta exceeds the other by more than a factor 16/15, beyond two seconds. */
  predicate Drift(clientDelta: int, serverDelta: int) {
    16 * (clientDelta + 2) < 15 * serverDelta || 16 * (serverDelta + 2) < 15 * clientDelta
  }

  /** From here on adding the two seconds wraps around. */
  const EDGE := TWO_TO_THE_32 - 2

  /** What the floor divisions and the 32-bit additions amount to, for all inputs. */
  lemma StateLostMeaning(last: uint32, clientDelta: uint32, newEpoch: uint32)
    ensures var serverDelta := Wrap(newEpoch - last);
            StateLost(last, clientDelta, newEpoch)
            <==> clientDelta >= EDGE || serverDelta >= EDGE || Drift(clientDelta, serverDelta)
  {
    var serverDelta: int := Wrap(newEpoch - last);
    PlusTwo(clientDelta);
    PlusTwo(serverDelta);
    FifteenSixteenths(Wrap(clientDelta + 2), serverDelta);
    FifteenSixteenths(Wrap(serverDelta + 2), clientDelta);
  }

  lemma PlusTwo(x: int)
    requires 0 <= x < TWO_TO_THE_32
    ensures Wrap(x + 2) == if x < EDGE then x + 2 else x - EDGE
  {
  }

  lemma DeltaMeaning(last: uint32, newEpoch: uint32)
    ensures Wrap(newEpoch - last) == if newEpoch < last then newEpoch - last + TWO_TO_THE_32 else newEpoch - last
  {
    if newEpoch < last {
      assert (newEpoch - last + TWO_TO_THE_32) % TWO_TO_THE_32 == (newEpoch - last) % TWO_TO_THE_32;
    }
  }

  /** The code's verdict: nothing is judged against a remembered epoch of 0. */
  predicate Flagged(last: uint32, clientDelta: uint32, newEpoch: uint32) {
    last > 0 && StateLost(last, clientDelta, newEpoch)
  }

  // ---------------------------------------------------------------- restarts

  /**
   The last epoch and the silence after it for which every restart shows. The silence is
   too short for the new epoch to catch up with the old one, or to have grown at an
   acceptable rate if it did; and it is too short for the drop to pass for a counter that
   wrapped around.
   */
  predicate RestartShows(last: uint32, clientDelta: uint32) {
    && last > 0
    && (|| clientDelta >= EDGE
        || (&& (clientDelta < last || clientDelta < 16 * last - 32)
            && 16 * (clientDelta + 2) < 15 * (TWO_TO_THE_32 - last)))
  }

  /** The epoch of a restarted server that is hardest to tell from an undisturbed one. */
  function HiddenEpoch(last: uint32, clientDelta: uint32): uint32 {
    if clientDelta >= last && clientDelta >= 16 * last - 32 then clientDelta
    else if clientDelta + last >= TWO_TO_THE_32 then clientDelta + last - TWO_TO_THE_32
    else 0
  }

  lemma HiddenRestart(last: uint32, clientDelta: uint32)
    requires !RestartShows(last, clientDelta)
    ensures HiddenEpoch(last, clientDelta) <= clientDelta
    ensures !Flagged(last, clientDelta, HiddenEpoch(last, clientDelta))
  {
    var e := HiddenEpoch(last, clientDelta);
    StateLostMeaning(last, clientDelta, e);
    DeltaMeaning(last, e);
  }

  /**
   Restart detection, exactly. The epoch of a server that restarted since the last response
   is at most the silence; all such epochs are flagged if and only if `RestartShows`.
   */
  lemma RestartIsDetectedExactly(last: uint32, clientDelta: uint32)
    ensures (forall e: uint32 :: e <= clientDelta ==> Flagged(last, clientDelta, e))
            <==> RestartShows(last, clientDelta)
  {
    if RestartShows(last, clientDelta) {
      forall e: uint32 | e <= clientDelta ensures Flagged(last, clientDelta, e) {
        StateLostMeaning(last, clientDelta, e);
        DeltaMeaning(last, e);
      }
    } else {
      HiddenRestart(last, clientDelta);
    }
  }

  /** In ordinary operation: below half the counter, for silences of less than 34 years. */
  lemma RestartIsDetected(last: uint32, clientDelta: uint32, newEpoch: uint32)
    requires 3 <= last <= 0x8000_0000
    requires newEpoch <= clientDelta
    requires clientDelta < 0x4000_0000 && clientDelta < 16 * last - 32
    ensures Flagged(last, clientDelta, newEpoch)
  {
    RestartIsDetectedExactly(last, clientDelta);
  }

  /** A restart right after the last response, once the new epoch has caught up. */
  lemma RestartBoundIsSharp(last: uint32, clientDelta: uint32)
    requires 0 < last <= clientDelta
    ensures Flagged(last, clientDelta, clientDelta) <==> clientDelta >= EDGE || clientDelta < 16 * last - 32
  {
    StateLostMeaning(last, clientDelta, clientDelta);
    DeltaMeaning(last, clientDelta);
  }

  /** Both ways to miss one: a server that had run for a minute, and a counter about to wrap. */
  lemma MissedRestarts()
    ensures !Flagged(60, 928, 928)
    ensures !Flagged(0xffff_ffff, 5, 5)
  {
  }

  /**
   No false alarm. The server's epoch is the floor of a clock running from `server0`
   to `server1`, taken modulo the counter; the client measured the whole seconds of
   `elapsed`. While the two clocks agree within a factor 16/15 nothing is flagged,
   even when the counter wraps in between.
   */
  lemma NoFalseAlarm(server0: real, server1: real, elapsed: real)
    requires 0.0 <= server0 <= server1 && 0.0 <= elapsed
    requires server1 - server0 < 4294967293.0 && elapsed < 4294967294.0
    requires 15.0 * (server1 - server0) <= 16.0 * elapsed
    requires 15.0 * elapsed <= 16.0 * (server1 - server0)
    ensures !StateLost(Wrap(server0.Floor), elapsed.Floor, Wrap(server1.Floor))
  {
    var s, c := server1.Floor - server0.Floor, elapsed.Floor;
    WrappedDifference(server0.Floor, server1.Floor);
    FloorsAgree(s, c, server1 - server0, elapsed);
    StateLostMeaning(Wrap(server0.Floor), c, Wrap(server1.Floor));
  }

  /** Deltas that are floors of agreeing spans, give or take one, do not disagree. */
  lemma FloorsAgree(s: int, c: int, server: real, client: real)
    requires (s - 1) as real < server < (s + 1) as real && c as real <= client < (c + 1) as real
    requires 15.0 * server <= 16.0 * client && 15.0 * client <= 16.0 * server
    ensures 15 * s <= 16 * (c + 2) && 15 * c <= 16 * (s + 2)
  {
    assert 15.0 * ((s - 1) as real) < 16.0 * ((c + 1) as real);
    assert 15.0 * (c as real) < 16.0 * ((s + 1) as real);
  }

  lemma WrappedDifference(a: nat, b: nat)
    requires a <= b < a + TWO_TO_THE_32
    ensures Wrap(Wrap(b) - Wrap(a)) == b - a
  {
  }

  // ---------------------------------------------------------------- section 8.5

  /** The rule of section 8.5 itself, on deltas that are not reduced modulo the counter. */
  predicate RfcInvalid(prev: uint32, clientDelta: uint32, curr: uint32) {
    if curr < prev - 1 then true
    else
      var serverDelta := curr - prev;
      clientDelta + 2 < serverDelta - serverDelta / 16 || serverDelta + 2 < clientDelta - clientDelta / 16
  }

  lemma RfcMeaning(prev: uint32, clientDelta: uint32, curr: uint32)
    ensures RfcInvalid(prev, clientDelta, curr) <==> curr < prev - 1 || Drift(clientDelta, curr - prev)
  {
    if curr >= prev {
      FifteenSixteenths(clientDelta + 2, curr - prev);
    }
    FifteenSixteenths(curr - prev + 2, clientDelta);
  }

  /**
   Where the code parts from section 8.5. No check against an epoch of 0; an epoch so far
   back that, given the silence, it passes for a counter that wrapped around; one exactly a
   second back, within a second; and deltas so large that adding two seconds wraps.
   */
  predicate Departs(prev: uint32, clientDelta: uint32, curr: uint32) {
    if prev == 0 then Drift(clientDelta, curr)
    else if curr < prev - 1 then
      && clientDelta < EDGE && curr != prev - 2
      && !Drift(clientDelta, curr - prev + TWO_TO_THE_32)
    else if curr == prev - 1 then clientDelta <= 1
    else
      (clientDelta >= EDGE || curr - prev >= EDGE) && !Drift(clientDelta, curr - prev)
  }

  /** The code and section 8.5 give the same verdict on exactly the other inputs. */
  lemma AgreesWithRfc(prev: uint32, clientDelta: uint32, curr: uint32)
    ensures (Flagged(prev, clientDelta, curr) <==> RfcInvalid(prev, clientDelta, curr))
            <==> !Departs(prev, clientDelta, curr)
  {
    StateLostMeaning(prev, clientDelta, curr);
    DeltaMeaning(prev, curr);
    RfcMeaning(prev, clientDelta, curr);
  }

  /** An input of each kind, and which side finds a loss there. */
  lemma Departures()
    ensures !Flagged(0, 0, 3) && RfcInvalid(0, 0, 3)
    ensures !Flagged(0xffff_ffff, 1, 0) && RfcInvalid(0xffff_ffff, 1, 0)
    ensures Flagged(100, 1, 99) && !RfcInvalid(100, 1, 99)
    ensures Flagged(1, 0xffff_fffe, 0xffff_ffff) && !RfcInvalid(1, 0xffff_fffe, 0xffff_ffff)
  {
  }

  // ---------------------------------------------------------------- tracking over time

  /** The epoch fields of a client; times are nanoseconds of its monotonic clock. */
  datatype Tracker = Tracker(lastEpoch: uint32, epochTime: Option<nat>, lost: bool)

  const FRESH := Tracker(0, None, false)

  function WholeSeconds(since: nat, now: nat): uint32 {
    if now < since then 0 else Wrap((now - since) / 1_000_000_000)
  }

  /** Nothing is judged before a first response, or against a remembered epoch of 0. */
  predicate Verdict(tr: Tracker, newEpoch: uint32, now: nat) {
    && tr.epochTime.Some?
    && Flagged(tr.lastEpoch, WholeSeconds(tr.epochTime.value, now), newEpoch)
  }

  function Update(tr: Tracker, newEpoch: uint32, now: nat): Tracker {
    Tracker(newEpoch, Some(now), tr.lost || Verdict(tr, newEpoch, now))
  }

  /** The silence a verdict is about is the whole seconds between the two readings of the clock. */
  lemma VerdictIsInSeconds(last: uint32, since: nat, lost: bool, newEpoch: uint32, seconds: uint32, rest: nat)
    requires rest < 1_000_000_000
    ensures Verdict(Tracker(last, Some(since), lost), newEpoch, since + seconds * 1_000_000_000 + rest)
            <==> last > 0 && StateLost(last, seconds, newEpoch)
    ensures !Verdict(Tracker(last, None, lost), newEpoch, since)
  {
    assert (seconds * 1_000_000_000 + rest) / 1_000_000_000 == seconds;
  }

  /** No false alarm, over the clock itself: `since` and `now` are its nanoseconds. */
  lemma NoFalseAlarmOverTime(server0: real, server1: real, since: nat, now: nat, lost: bool)
    requires 0.0 <= server0 <= server1 && server1 - server0 < 4294967293.0
    requires since <= now < since + 4294967294 * 1_000_000_000
    requires 15.0 * (server1 - server0) * 1000000000.0 <= 16.0 * ((now - since) as real)
    requires 15.0 * ((now - since) as real) <= 16.0 * (server1 - server0) * 1000000000.0
    ensures !Verdict(Tracker(Wrap(server0.Floor), Some(since), lost), Wrap(server1.Floor), now)
  {
    var n := now - since;
    var seconds, rest := n / 1_000_000_000, n % 1_000_000_000;
    var elapsed := n as real / 1000000000.0;
    assert n == seconds * 1_000_000_000 + rest;
    assert elapsed * 1000000000.0 == n as real;
    assert seconds as real <= elapsed < (seconds + 1) as real;
    assert elapsed.Floor == seconds;
    NoFalseAlarm(server0, server1, elapsed);
    VerdictIsInSeconds(Wrap(server0.Floor), since, lost, Wrap(server1.Floor), seconds, rest);
  }

  /** Restart detection, over the clock itself. */
  lemma RestartIsDetectedOverTime(last: uint32, since: nat, lost: bool, seconds: uint32, rest: nat)
    requires rest < 1_000_000_000
    ensures var now := since + seconds * 1_000_000_000 + rest;
            (forall e: uint32 :: e <= seconds ==> Verdict(Tracker(last, Some(since), lost), e, now))
            <==> RestartShows(last, seconds)
  {
    RestartIsDetectedExactly(last, seconds);
    forall e: uint32
      ensures Verdict(Tracker(last, Some(since), lost), e, since + seconds * 1_000_000_000 + rest)
              <==> Flagged(last, seconds, e)
    {
      VerdictIsInSeconds(last, since, lost, e, seconds, rest);
    }
  }

  datatype Event = Heard(epoch: uint32, now: nat) | Read

  function Step(tr: Tracker, e: Event): Tracker {
    match e
    case Heard(epoch, now) => Update(tr, epoch, now)
    case Read => tr.(lost := false)
  }

  function Run(tr: Tracker, events: seq<Event>): Tracker {
    if events == [] then tr else Step(Run(tr, events[..|events|-1]), events[|events|-1])
  }

  /** Event `i` of the run is a response that the client judged a loss of state. */
  predicate RaisedAt(tr: Tracker, events: seq<Event>, i: nat)
    requires i < |events|
  {
    events[i].Heard? && Verdict(Run(tr, events[..i]), events[i].epoch, events[i].now)
  }

  /** Nothing but reads between two responses, or since the last. */
  predicate OnlyReads(events: seq<Event>, i: nat, j: nat)
    requires j <= |events|
  {
    forall k :: i <= k < j ==> events[k].Read?
  }

  lemma {:induction false} LastHeard(tr: Tracker, events: seq<Event>, i: nat)
    requires i < |events| && events[i].Heard? && OnlyReads(events, i + 1, |events|)
    ensures Run(tr, events).lastEpoch == events[i].epoch && Run(tr, events).epochTime == Some(events[i].now)
    decreases |events|
  {
    var front := events[..|events|-1];
    if i < |front| {
      assert forall k :: 0 <= k < |front| ==> front[k] == events[k];
      LastHeard(tr, front, i);
    }
  }

  /** Each response is judged against the one before it, in seconds of the clock. */
  lemma JudgedAgainstPrevious(tr: Tracker, events: seq<Event>, i: nat, j: nat, seconds: uint32, rest: nat)
    requires i < j < |events| && events[i].Heard? && events[j].Heard? && OnlyReads(events, i + 1, j)
    requires rest < 1_000_000_000 && events[j].now == events[i].now + seconds * 1_000_000_000 + rest
    ensures RaisedAt(tr, events, j)
            <==> events[i].epoch > 0 && StateLost(events[i].epoch, seconds, events[j].epoch)
  {
    var before := events[..j];
    assert forall k :: 0 <= k < j ==> before[k] == events[k];
    LastHeard(tr, before, i);
    VerdictIsInSeconds(events[i].epoch, events[i].now, Run(tr, before).lost, events[j].epoch, seconds, rest);
  }

  /** Some response in `events` was judged a loss, and the flag has not been read since. */
  ghost predicate Pending(tr: Tracker, events: seq<Event>) {
    exists i :: && 0 <= i < |events| && RaisedAt(tr, events, i)
                && forall j :: i < j < |events| ==> !events[j].Read?
  }

  lemma PendingGrows(tr: Tracker, before: seq<Event>, e: Event)
    ensures Pending(tr, before + [e])
            <==> (e.Heard? && Verdict(Run(tr, before), e.epoch, e.now)) || (!e.Read? && Pending(tr, before))
  {
    var n, events := |before|, before + [e];
    assert events[..n] == before;
    forall i | 0 <= i < n ensures RaisedAt(tr, before, i) == RaisedAt(tr, events, i) {
      assert before[..i] == events[..i];
    }
    if RaisedAt(tr, events, n) {
      assert Pending(tr, events);
    } else if !e.Read? && Pending(tr, before) {
      var i :| 0 <= i < n && RaisedAt(tr, before, i) && forall j :: i < j < n ==> !before[j].Read?;
      assert RaisedAt(tr, events, i);
    }
  }

  /**
   No loss goes unreported and none is reported twice: the flag a read finds after any
   run is up exactly when some response since the last read was judged a loss.
   */
  lemma {:induction false} FlagIsConserved(tr: Tracker, events: seq<Event>)
    requires !tr.lost
    ensures Run(tr, events).lost <==> Pending(tr, events)
  {
    if events != [] {
      var n := |events| - 1;
      FlagIsConserved(tr, events[..n]);
      PendingGrows(tr, events[..n], events[n]);
      assert events == events[..n] + [events[n]];
    }
  }
}
