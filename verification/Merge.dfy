/**
 `mergeNATs`: one worker goroutine per source forwards what it receives to a single
 unbuffered channel, which is closed when all workers are gone. Stepwise, for any number
 of sources and any interleaving.
 */
module Merge {
  import opened Basics

  /** A source is nil, or delivers some items and then possibly closes. */
  datatype Source<V> = Source(items: seq<V>, closes: bool)

  datatype Worker<V> = Worker(unread: seq<V>, closes: bool, hand: Option<V>, gone: bool)

  datatype Emission<V> = Emission(source: nat, value: V)

  datatype State<V> = State(workers: seq<Worker<V>>, emitted: seq<Emission<V>>, done: bool, closed: bool)

  datatype Step =
    | Receive(i: nat)     // an item arrives from source i
    | SeeClosed(i: nat)   // source i is closed
    | Emit(i: nat)        // the consumer takes what worker i holds
    | Quit(i: nat)        // worker i notices that the context is done
    | Cancel
    | Close

  function Start<V>(source: Option<Source<V>>): Worker<V> {
    if source.None? then Worker([], false, None, true) else Worker(source.value.items, source.value.closes, None, false)
  }

  function Init<V>(sources: seq<Option<Source<V>>>): State<V> {
    State(seq(|sources|, i requires 0 <= i < |sources| => Start(sources[i])), [], false, false)
  }

  function Items<V>(source: Option<Source<V>>): seq<V> {
    if source.Some? then source.value.items else []
  }

  predicate Enabled<V>(s: State<V>, st: Step) {
    match st
    case Receive(i) => i < |s.workers| && !s.workers[i].gone && s.workers[i].hand.None? && s.workers[i].unread != []
    case SeeClosed(i) =>
      && i < |s.workers| && !s.workers[i].gone && s.workers[i].hand.None?
      && s.workers[i].unread == [] && s.workers[i].closes
    case Emit(i) => i < |s.workers| && !s.workers[i].gone && s.workers[i].hand.Some?
    case Quit(i) => i < |s.workers| && !s.workers[i].gone && s.done
    case Cancel => true
    case Close => !s.closed && forall i :: 0 <= i < |s.workers| ==> s.workers[i].gone
  }

  function Apply<V>(s: State<V>, st: Step): State<V>
    requires Enabled(s, st)
  {
    match st
    case Receive(i) =>
      var w := s.workers[i];
      s.(workers := s.workers[i := w.(unread := w.unread[1..], hand := Some(w.unread[0]))])
    case SeeClosed(i) => s.(workers := s.workers[i := s.workers[i].(gone := true)])
    case Emit(i) =>
      var w := s.workers[i];
      s.(workers := s.workers[i := w.(hand := None)], emitted := s.emitted + [Emission(i, w.hand.value)])
    case Quit(i) => s.(workers := s.workers[i := s.workers[i].(gone := true)])
    case Cancel => s.(done := true)
    case Close => s.(closed := true)
  }

  ghost predicate Valid<V>(s: State<V>, steps: seq<Step>)
    decreases |steps|
  {
    steps == [] || (Enabled(s, steps[0]) && Valid(Apply(s, steps[0]), steps[1..]))
  }

  ghost function Exec<V>(s: State<V>, steps: seq<Step>): State<V>
    requires Valid(s, steps)
    decreases |steps|
  {
    if steps == [] then s else Exec(Apply(s, steps[0]), steps[1..])
  }

  /** What the output carries from one source. */
  function From<V>(emitted: seq<Emission<V>>, i: nat): seq<V> {
    if emitted == [] then []
    else
      var n := |emitted| - 1;
      From(emitted[..n], i) + if emitted[n].source == i then [emitted[n].value] else []
  }

  function Held<V>(w: Worker<V>): seq<V> {
    (if w.hand.Some? then [w.hand.value] else []) + w.unread
  }

  /** Source `i` is what was emitted of it, then what its worker holds, then the rest. */
  ghost predicate Conserved<V>(sources: seq<Option<Source<V>>>, s: State<V>, i: nat) {
    && i < |s.workers| == |sources|
    && Items(sources[i]) == From(s.emitted, i) + Held(s.workers[i])
    && (s.workers[i].gone && !s.done ==> Held(s.workers[i]) == [])
  }

  ghost predicate Inv<V>(sources: seq<Option<Source<V>>>, s: State<V>) {
    && |s.workers| == |sources|
    && (forall i :: 0 <= i < |sources| ==> Conserved(sources, s, i))
    && (s.closed ==> forall i :: 0 <= i < |s.workers| ==> s.workers[i].gone)
    && (forall k :: 0 <= k < |s.emitted| ==> s.emitted[k].source < |sources|)
  }

  lemma FromSnoc<V>(emitted: seq<Emission<V>>, e: Emission<V>, i: nat)
    ensures From(emitted + [e], i) == From(emitted, i) + if e.source == i then [e.value] else []
  {
    assert (emitted + [e])[..|emitted|] == emitted;
  }

  lemma Joins<V>(out: seq<V>, x: V, rest: seq<V>)
    ensures out + ([x] + rest) == (out + [x]) + rest
  {
  }

  lemma EmitConserves<V>(sources: seq<Option<Source<V>>>, s: State<V>, j: nat, i: nat)
    requires Conserved(sources, s, i) && Enabled(s, Emit(j))
    ensures Conserved(sources, Apply(s, Emit(j)), i)
  {
    var w := s.workers[j];
    var s' := Apply(s, Emit(j));
    FromSnoc(s.emitted, Emission(j, w.hand.value), i);
    if j == i {
      assert Held(w) == [w.hand.value] + w.unread && Held(s'.workers[i]) == w.unread;
      Joins(From(s.emitted, i), w.hand.value, w.unread);
    } else {
      assert s'.workers[i] == s.workers[i];
    }
  }

  lemma OtherConserves<V>(sources: seq<Option<Source<V>>>, s: State<V>, st: Step, i: nat)
    requires Conserved(sources, s, i) && Enabled(s, st) && !st.Emit?
    ensures Conserved(sources, Apply(s, st), i)
  {
    var s' := Apply(s, st);
    assert s'.emitted == s.emitted;
    if st == Receive(i) {
      var unread := s.workers[i].unread;
      assert unread == [unread[0]] + unread[1..];
    }
    assert Held(s'.workers[i]) == Held(s.workers[i]);
  }

  lemma StepConserves<V>(sources: seq<Option<Source<V>>>, s: State<V>, st: Step, i: nat)
    requires Conserved(sources, s, i) && Enabled(s, st)
    ensures Conserved(sources, Apply(s, st), i)
  {
    match st {
      case Emit(j) => EmitConserves(sources, s, j, i);
      case _ => OtherConserves(sources, s, st, i);
    }
  }

  lemma {:induction false} RunConserves<V>(sources: seq<Option<Source<V>>>, s: State<V>, steps: seq<Step>)
    requires Inv(sources, s) && Valid(s, steps)
    ensures Inv(sources, Exec(s, steps))
    decreases |steps|
  {
    if steps != [] {
      forall i | 0 <= i < |sources| ensures Conserved(sources, Apply(s, steps[0]), i) {
        StepConserves(sources, s, steps[0], i);
      }
      RunConserves(sources, Apply(s, steps[0]), steps[1..]);
    }
  }

  /** `emitted` interleaves the sources, each complete and in its own order. */
  ghost predicate Shuffle<V>(sources: seq<Option<Source<V>>>, emitted: seq<Emission<V>>) {
    && (forall k :: 0 <= k < |emitted| ==> emitted[k].source < |sources|)
    && (forall i :: 0 <= i < |sources| ==> From(emitted, i) == Items(sources[i]))
  }

  /**
   In every run the output carries a prefix of each source, in order; it is closed only
   once every worker is gone; and closed without cancellation it is a complete shuffle.
   */
  lemma MergeIsOrdered<V>(sources: seq<Option<Source<V>>>, steps: seq<Step>)
    requires Valid(Init(sources), steps)
    ensures var s := Exec(Init(sources), steps);
            && (forall i :: 0 <= i < |sources| ==> From(s.emitted, i) <= Items(sources[i]))
            && (s.closed && !s.done ==> Shuffle(sources, s.emitted))
            && (s.closed ==> |s.workers| == |sources| && forall i :: 0 <= i < |sources| ==> s.workers[i].gone)
  {
    RunConserves(sources, Init(sources), steps);
    var s := Exec(Init(sources), steps);
    forall i | 0 <= i < |sources|
      ensures From(s.emitted, i) <= Items(sources[i])
      ensures s.closed && !s.done ==> From(s.emitted, i) == Items(sources[i])
    {
      assert Conserved(sources, s, i);
      if s.closed && !s.done {
        assert s.workers[i].gone && Held(s.workers[i]) == [];
      }
    }
  }

  // ---------------------------------------------------------------- every shuffle can happen

  ghost predicate Leads<V>(s: State<V>, end: State<V>) {
    exists steps: seq<Step> :: Valid(s, steps) && Exec(s, steps) == end
  }

  lemma LeadsHere<V>(s: State<V>)
    ensures Leads(s, s)
  {
    var none: seq<Step> := [];
    assert Valid(s, none) && Exec(s, none) == s;
  }

  lemma {:induction false} StepsJoin<V>(s: State<V>, steps: seq<Step>, st: Step)
    requires Valid(s, steps) && Enabled(Exec(s, steps), st)
    ensures Valid(s, steps + [st]) && Exec(s, steps + [st]) == Apply(Exec(s, steps), st)
    decreases |steps|
  {
    var all := steps + [st];
    if steps == [] {
      assert all == [st] && all[1..] == [];
    } else {
      assert all[0] == steps[0] && all[1..] == steps[1..] + [st];
      StepsJoin(Apply(s, steps[0]), steps[1..], st);
    }
  }

  lemma Advance<V>(origin: State<V>, s: State<V>, st: Step) returns (s': State<V>)
    requires Leads(origin, s) && Enabled(s, st)
    ensures s' == Apply(s, st) && Leads(origin, s')
  {
    var steps: seq<Step> :| Valid(origin, steps) && Exec(origin, steps) == s;
    s' := Apply(s, st);
    StepsJoin(origin, steps, st);
  }

  /** The run has emitted `emitted` and every worker is between two items. */
  ghost predicate Rested<V>(sources: seq<Option<Source<V>>>, s: State<V>, emitted: seq<Emission<V>>) {
    && Inv(sources, s) && s.emitted == emitted && !s.done && !s.closed
    && forall i :: 0 <= i < |sources| ==> s.workers[i].hand.None? && (s.workers[i].gone <==> sources[i].None?)
                                          && (sources[i].Some? ==> s.workers[i].closes == sources[i].value.closes)
  }

  lemma InitRested<V>(sources: seq<Option<Source<V>>>)
    ensures Rested(sources, Init(sources), [])
  {
  }

  lemma RestedKept<V>(sources: seq<Option<Source<V>>>, s0: State<V>, s1: State<V>, s2: State<V>, e: Emission<V>)
    requires Rested(sources, s0, s0.emitted) && e.source < |sources|
    requires Enabled(s0, Receive(e.source)) && s1 == Apply(s0, Receive(e.source))
    requires Enabled(s1, Emit(e.source)) && s2 == Apply(s1, Emit(e.source))
    ensures Rested(sources, s2, s2.emitted)
  {
    forall i | 0 <= i < |sources| ensures Conserved(sources, s2, i) {
      StepConserves(sources, s0, Receive(e.source), i);
      StepConserves(sources, s1, Emit(e.source), i);
    }
  }

  /** The next item in line passes through its worker. */
  lemma OneMore<V>(sources: seq<Option<Source<V>>>, s0: State<V>, e: Emission<V>) returns (s: State<V>)
    requires Leads(Init(sources), s0) && Rested(sources, s0, s0.emitted)
    requires e.source < |sources| && From(s0.emitted, e.source) + [e.value] <= Items(sources[e.source])
    ensures Leads(Init(sources), s) && s.emitted == s0.emitted + [e] && Rested(sources, s, s.emitted)
  {
    assert Conserved(sources, s0, e.source);
    var w := s0.workers[e.source];
    assert Held(w) == w.unread;
    assert w.unread[0] == Items(sources[e.source])[|From(s0.emitted, e.source)|] == e.value;
    var s1 := Advance(Init(sources), s0, Receive(e.source));
    s := Advance(Init(sources), s1, Emit(e.source));
    RestedKept(sources, s0, s1, s, e);
  }

  ghost predicate Happens<V>(sources: seq<Option<Source<V>>>, s: State<V>, emitted: seq<Emission<V>>) {
    Leads(Init(sources), s) && s.emitted == emitted && Rested(sources, s, emitted)
  }

  /** Any prefix of any shuffle can be emitted. */
  lemma {:induction false} PrefixHappens<V>(sources: seq<Option<Source<V>>>, emitted: seq<Emission<V>>, n: nat)
    returns (s: State<V>)
    requires Shuffle(sources, emitted) && n <= |emitted|
    ensures Happens(sources, s, emitted[..n])
    decreases n
  {
    if n == 0 {
      s := NothingHappens(sources, emitted[..0]);
    } else {
      var s0 := PrefixHappens(sources, emitted, n - 1);
      NextInLine(sources, emitted, n - 1);
      s := ItemHappens(sources, s0, emitted, n - 1);
    }
  }

  lemma NothingHappens<V>(sources: seq<Option<Source<V>>>, emitted: seq<Emission<V>>) returns (s: State<V>)
    requires emitted == []
    ensures Happens(sources, s, emitted)
  {
    s := Init(sources);
    LeadsHere(s);
    InitRested(sources);
  }

  lemma ItemHappens<V>(sources: seq<Option<Source<V>>>, s0: State<V>, emitted: seq<Emission<V>>, n: nat)
    returns (s: State<V>)
    requires n < |emitted| && emitted[n].source < |sources|
    requires Happens(sources, s0, emitted[..n])
    requires var e := emitted[n]; From(emitted[..n], e.source) + [e.value] <= Items(sources[e.source])
    ensures Happens(sources, s, emitted[..n+1])
  {
    assert emitted[..n+1] == emitted[..n] + [emitted[n]];
    s := OneMore(sources, s0, emitted[n]);
  }

  /** Item `n` of a shuffle is the next one its source still has to give. */
  lemma {:induction false} NextInLine<V>(sources: seq<Option<Source<V>>>, emitted: seq<Emission<V>>, n: nat)
    requires Shuffle(sources, emitted) && n < |emitted|
    ensures emitted[n].source < |sources|
    ensures var e := emitted[n]; From(emitted[..n], e.source) + [e.value] <= Items(sources[e.source])
  {
    FromGrows(emitted, n + 1, emitted[n].source);
    assert emitted[..n+1][..n] == emitted[..n];
  }

  lemma {:induction false} FromGrows<V>(emitted: seq<Emission<V>>, n: nat, i: nat)
    requires n <= |emitted|
    ensures From(emitted[..n], i) <= From(emitted, i)
    decreases |emitted| - n
  {
    if n < |emitted| {
      assert emitted[..n+1][..n] == emitted[..n];
      FromGrows(emitted, n + 1, i);
    } else {
      assert emitted[..n] == emitted;
    }
  }

  /** `s` is `s0` with the first `k` workers gone. */
  ghost predicate HaveLeft<V>(s0: State<V>, s: State<V>, k: nat) {
    && s == s0.(workers := s.workers) && |s.workers| == |s0.workers|
    && (forall i :: 0 <= i < k && i < |s.workers| ==> s.workers[i].gone)
    && (forall i :: k <= i < |s.workers| ==> s.workers[i] == s0.workers[i])
  }

  lemma NextLeaves<V>(origin: State<V>, s0: State<V>, s: State<V>, k: nat) returns (s': State<V>)
    requires Leads(origin, s) && HaveLeft(s0, s, k) && k < |s0.workers|
    requires !s0.workers[k].gone ==> Enabled(s0, SeeClosed(k))
    ensures Leads(origin, s') && HaveLeft(s0, s', k + 1)
  {
    s' := s;
    if !s.workers[k].gone {
      s' := Advance(origin, s, SeeClosed(k));
    }
  }

  /** A worker with nothing left sees that its source is closed. */
  lemma CanLeave<V>(sources: seq<Option<Source<V>>>, s: State<V>, k: nat)
    requires Rested(sources, s, s.emitted) && Shuffle(sources, s.emitted) && k < |sources|
    requires sources[k].Some? ==> sources[k].value.closes
    ensures !s.workers[k].gone ==> Enabled(s, SeeClosed(k))
  {
    assert Conserved(sources, s, k);
    assert |Items(sources[k])| == |From(s.emitted, k)| + |Held(s.workers[k])|;
  }

  /** Once all is emitted, the workers of closing sources leave one by one. */
  lemma {:induction false} WorkersLeave<V>(sources: seq<Option<Source<V>>>, s0: State<V>, k: nat)
    returns (s: State<V>)
    requires Rested(sources, s0, s0.emitted) && Shuffle(sources, s0.emitted)
    requires Leads(Init(sources), s0) && k <= |sources|
    requires forall i :: 0 <= i < |sources| && sources[i].Some? ==> sources[i].value.closes
    ensures Leads(Init(sources), s) && HaveLeft(s0, s, k)
  {
    if k == 0 {
      s := s0;
    } else {
      var s1 := WorkersLeave(sources, s0, k - 1);
      CanLeave(sources, s0, k - 1);
      s := NextLeaves(Init(sources), s0, s1, k - 1);
    }
  }

  /**
   The merge adds no order of its own: when every source closes, the outputs of the
   uncancelled, finished runs are exactly the shuffles of the sources.
   */
  lemma MergeIsAnyShuffle<V(!new)>(sources: seq<Option<Source<V>>>, emitted: seq<Emission<V>>)
    requires forall i :: 0 <= i < |sources| && sources[i].Some? ==> sources[i].value.closes
    ensures Shuffle(sources, emitted) <==>
            exists s :: Leads(Init(sources), s) && s.closed && !s.done && s.emitted == emitted
  {
    if Shuffle(sources, emitted) {
      var s := ShuffleHappens(sources, emitted);
    }
    if s :| Leads(Init(sources), s) && s.closed && !s.done && s.emitted == emitted {
      var steps: seq<Step> :| Valid(Init(sources), steps) && Exec(Init(sources), steps) == s;
      FinishedIsShuffle(sources, steps);
    }
  }

  lemma ShuffleHappens<V>(sources: seq<Option<Source<V>>>, emitted: seq<Emission<V>>) returns (s: State<V>)
    requires forall i :: 0 <= i < |sources| && sources[i].Some? ==> sources[i].value.closes
    requires Shuffle(sources, emitted)
    ensures Leads(Init(sources), s) && s.closed && !s.done && s.emitted == emitted
  {
    assert emitted[..|emitted|] == emitted;
    var s0 := PrefixHappens(sources, emitted, |emitted|);
    var s1 := WorkersLeave(sources, s0, |sources|);
    s := Advance(Init(sources), s1, Close);
  }

  lemma FinishedIsShuffle<V>(sources: seq<Option<Source<V>>>, steps: seq<Step>)
    requires Valid(Init(sources), steps)
    requires var s := Exec(Init(sources), steps); s.closed && !s.done
    ensures Shuffle(sources, Exec(Init(sources), steps).emitted)
  {
    MergeIsOrdered(sources, steps);
    RunConserves(sources, Init(sources), steps);
  }
}
