/**
 How UPnP discovery settles on one service: the best-ranked usable WAN connection of a
 device description, and the first gateway-addressed description that yields one.
 */
module ServiceChoice {
  import opened Basics

  datatype Kind = WANIPConnection2 | WANIPConnection1 | WANPPPConnection1 | OtherKind

  function Rank(k: Kind): nat {
    match k
    case WANIPConnection2 => 3
    case WANIPConnection1 => 2
    case WANPPPConnection1 => 1
    case OtherKind => 0
  }

  /** The order of preference, and what is not ranked at all. */
  lemma RankOrder(k: Kind)
    ensures Rank(WANIPConnection2) > Rank(WANIPConnection1) > Rank(WANPPPConnection1) > 0
    ensures Rank(k) == 0 <==> k == OtherKind
  {
  }

  /** A service of the description; `usable` if probing it finds NAT enabled. */
  datatype Service = Service(kind: Kind, usable: bool)

  /** The preference of `sort.SliceStable`: higher rank first, document order among equals. */
  predicate Better(svcs: seq<Service>, i: nat, j: nat)
    requires i < |svcs| && j < |svcs|
  {
    Rank(svcs[i].kind) > Rank(svcs[j].kind) || (Rank(svcs[i].kind) == Rank(svcs[j].kind) && i < j)
  }

  predicate InRange(svcs: seq<Service>, q: seq<nat>) {
    forall a :: 0 <= a < |q| ==> q[a] < |svcs|
  }

  predicate Sorted(svcs: seq<Service>, q: seq<nat>)
    requires InRange(svcs, q)
  {
    forall a, b :: 0 <= a < b < |q| ==> Better(svcs, q[a], q[b])
  }

  /** One insertion of a stable sort: behind everything that ranks at least as high. */
  function Insert(svcs: seq<Service>, q: seq<nat>, x: nat): (r: seq<nat>)
    requires InRange(svcs, q) && x < |svcs|
    ensures InRange(svcs, r) && multiset(r) == multiset(q) + multiset{x}
  {
    if q == [] || Rank(svcs[q[|q|-1]].kind) >= Rank(svcs[x].kind) then q + [x]
    else
      assert q == q[..|q|-1] + [q[|q|-1]];
      Insert(svcs, q[..|q|-1], x) + [q[|q|-1]]
  }

  function StableSort(svcs: seq<Service>, s: seq<nat>): (r: seq<nat>)
    requires InRange(svcs, s)
    ensures InRange(svcs, r) && multiset(r) == multiset(s)
  {
    if s == [] then []
    else
      assert s == s[..|s|-1] + [s[|s|-1]];
      Insert(svcs, StableSort(svcs, s[..|s|-1]), s[|s|-1])
  }

  lemma {:induction false} InsertSorts(svcs: seq<Service>, q: seq<nat>, x: nat)
    requires InRange(svcs, q) && x < |svcs| && Sorted(svcs, q)
    requires forall a :: 0 <= a < |q| ==> q[a] < x
    ensures Sorted(svcs, Insert(svcs, q, x))
    decreases |q|
  {
    if q != [] && Rank(svcs[q[|q|-1]].kind) < Rank(svcs[x].kind) {
      var front := q[..|q|-1];
      InsertSorts(svcs, front, x);
      var r := Insert(svcs, front, x);
      forall a | 0 <= a < |r| ensures Better(svcs, r[a], q[|q|-1]) {
        assert r[a] in multiset(r);
        assert r[a] in front || r[a] == x;
      }
    }
  }

  lemma {:induction false} StableSortSorts(svcs: seq<Service>, s: seq<nat>)
    requires InRange(svcs, s) && forall a, b :: 0 <= a < b < |s| ==> s[a] < s[b]
    ensures Sorted(svcs, StableSort(svcs, s))
    decreases |s|
  {
    if s != [] {
      var front := s[..|s|-1];
      StableSortSorts(svcs, front);
      var q := StableSort(svcs, front);
      forall a | 0 <= a < |q| ensures q[a] < s[|s|-1] {
        assert q[a] in multiset(q);
        assert q[a] in front;
      }
      InsertSorts(svcs, q, s[|s|-1]);
    }
  }

  predicate Candidate(svcs: seq<Service>, i: nat) {
    i < |svcs| && Rank(svcs[i].kind) > 0 && svcs[i].usable
  }

  /** `i` is usable and beats every other usable service. */
  ghost predicate Best(svcs: seq<Service>, i: nat) {
    Candidate(svcs, i) && forall j :: Candidate(svcs, j) && j != i ==> Better(svcs, i, j)
  }

  /** The ranked services in document order, then in order of preference. */
  predicate Listed(svcs: seq<Service>, s: seq<nat>) {
    && InRange(svcs, s)
    && (forall a :: 0 <= a < |s| ==> Rank(svcs[s[a]].kind) > 0)
    && (forall j :: 0 <= j < |svcs| && Rank(svcs[j].kind) > 0 ==> j in s)
  }

  lemma SortKeepsListed(svcs: seq<Service>, s: seq<nat>)
    requires Listed(svcs, s)
    ensures Listed(svcs, StableSort(svcs, s))
  {
    var r := StableSort(svcs, s);
    SameMembers(s, r);
    forall a | 0 <= a < |r| ensures Rank(svcs[r[a]].kind) > 0 {
      assert r[a] in s;
    }
  }

  lemma SameMembers(s: seq<nat>, r: seq<nat>)
    requires multiset(s) == multiset(r)
    ensures forall j :: j in s <==> j in r
  {
    forall j ensures j in s <==> j in r {
      assert j in s <==> j in multiset(s);
      assert j in r <==> j in multiset(r);
    }
  }

  /** In the preferred order, the first that works is the best there is. */
  lemma FirstUsableIsBest(svcs: seq<Service>, q: seq<nat>, k: nat)
    requires Listed(svcs, q) && Sorted(svcs, q) && k < |q|
    requires svcs[q[k]].usable && forall a :: 0 <= a < k ==> !svcs[q[a]].usable
    ensures Best(svcs, q[k])
  {
    forall j: nat | Candidate(svcs, j) && j != q[k] ensures Better(svcs, q[k], j) {
      var b :| 0 <= b < |q| && q[b] == j;
    }
  }

  /**
   Filter, stable sort, then probe until one works. The service returned is the usable
   one of highest rank, first in the document among equals; without one it is an error.
   No service is probed twice, nor any of an unknown kind.
   */
  method NatFromLocation(svcs: seq<Service>) returns (chosen: Option<nat>, probed: seq<nat>)
    ensures chosen.Some? ==> Best(svcs, chosen.value)
    ensures chosen.None? ==> forall j: nat :: !Candidate(svcs, j)
    ensures InRange(svcs, probed) && Sorted(svcs, probed)
    ensures forall a :: 0 <= a < |probed| ==> Rank(svcs[probed[a]].kind) > 0
  {
    var services := RankedServices(svcs);
    StableSortSorts(svcs, services);
    SortKeepsListed(svcs, services);
    var sorted := StableSort(svcs, services);
    chosen, probed := None, [];
    for k := 0 to |sorted|
      invariant chosen.None? && probed == sorted[..k]
      invariant forall a :: 0 <= a < k ==> !svcs[sorted[a]].usable
    {
      probed := probed + [sorted[k]];
      if svcs[sorted[k]].usable {
        FirstUsableIsBest(svcs, sorted, k);
        return Some(sorted[k]), probed;
      }
    }
  }

  method RankedServices(svcs: seq<Service>) returns (services: seq<nat>)
    ensures Listed(svcs, services)
    ensures forall a, b :: 0 <= a < b < |services| ==> services[a] < services[b]
  {
    services := [];
    for i := 0 to |svcs|
      invariant forall a :: 0 <= a < |services| ==> services[a] < i && Rank(svcs[services[a]].kind) > 0
      invariant forall a, b :: 0 <= a < b < |services| ==> services[a] < services[b]
      invariant forall j :: 0 <= j < i && Rank(svcs[j].kind) > 0 ==> j in services
    {
      if Rank(svcs[i].kind) > 0 {
        services := services + [i];
      }
    }
  }

  // ---------------------------------------------------------------- unicast discovery

  datatype UnicastError = ContextEnded | NoGateway

  /** What one search returned, or nothing if it failed. */
  function Locations(answer: Option<seq<string>>): seq<string> {
    if answer.Some? then answer.value else []
  }

  function Flatten(answers: seq<Option<seq<string>>>): seq<string> {
    if answers == [] then [] else Flatten(answers[..|answers|-1]) + Locations(answers[|answers|-1])
  }

  /** How many searches are made before the context is found to be done. */
  function Reached(answers: seq<Option<seq<string>>>, deadline: nat): (n: nat)
    ensures n <= |answers|
    ensures n == deadline || (n == |answers| && n < deadline)
  {
    if deadline < |answers| then deadline else |answers|
  }

  /** The first location in the order of the answers that both tests accept. */
  ghost predicate FirstGood(all: seq<string>, good: string -> bool, location: string) {
    exists i :: 0 <= i < |all| && all[i] == location && good(location) && forall j :: 0 <= j < i ==> !good(all[j])
  }

  /** No good location among those visited. */
  ghost predicate NoneGood(visited: set<string>, namesGateway: string -> bool, works: string -> bool) {
    forall l :: l in visited ==> !(namesGateway(l) && works(l))
  }

  /** Every description fetched is the gateway's own, and fetched once. */
  ghost predicate Modest(probed: seq<string>, visited: set<string>, namesGateway: string -> bool) {
    && (forall l :: l in probed ==> l in visited && namesGateway(l))
    && (forall a, b :: 0 <= a < b < |probed| ==> probed[a] != probed[b])
  }

  /** The inner loop: the locations one search returned. */
  method Visit(locations: seq<string>, namesGateway: string -> bool, works: string -> bool,
               visited: set<string>, before: seq<string>)
    returns (found: Option<nat>, checked: set<string>, probed: seq<string>)
    requires NoneGood(visited, namesGateway, works) && Modest(before, visited, namesGateway)
    ensures Modest(probed, checked, namesGateway)
    ensures found.None? ==> && NoneGood(checked, namesGateway, works) && visited <= checked
                            && forall l :: l in locations ==> l in checked
    ensures found.Some? ==> && found.value < |locations|
                            && namesGateway(locations[found.value]) && works(locations[found.value])
                            && forall j :: 0 <= j < found.value ==> !(namesGateway(locations[j]) && works(locations[j]))
  {
    checked, probed := visited, before;
    for k := 0 to |locations|
      invariant NoneGood(checked, namesGateway, works) && Modest(probed, checked, namesGateway)
      invariant visited <= checked && forall j :: 0 <= j < k ==> locations[j] in checked
    {
      var location := locations[k];
      if location !in checked {
        checked := checked + {location};
        if namesGateway(location) {
          probed := probed + [location];
          if works(location) {
            return Some(k), checked, probed;
          }
        }
      }
    }
    found := None;
  }

  /**
   Searches are made in order until one location addressed at the gateway yields a usable
   service. The visited set spares repeated probes without changing which one is found.
   */
  method DiscoverUnicast(answers: seq<Option<seq<string>>>, namesGateway: string -> bool,
                         works: string -> bool, deadline: nat)
    returns (r: Result<string, UnicastError>, probed: seq<string>)
    ensures var good := (l: string) => namesGateway(l) && works(l);
            match r
            case Ok(location) => FirstGood(Flatten(answers[..Reached(answers, deadline)]), good, location)
            case Err(e) => (forall l :: l in Flatten(answers[..Reached(answers, deadline)]) ==> !good(l))
                           && (e == ContextEnded <==> deadline < |answers|)
    ensures forall a, b :: 0 <= a < b < |probed| ==> probed[a] != probed[b]
    ensures forall l :: l in probed ==> namesGateway(l)
  {
    ghost var good := (l: string) => namesGateway(l) && works(l);
    var checked: set<string> := {};
    probed := [];
    for t := 0 to |answers|
      invariant t <= Reached(answers, deadline) && forall l :: l in Flatten(answers[..t]) ==> l in checked
      invariant NoneGood(checked, namesGateway, works) && Modest(probed, checked, namesGateway)
    {
      if t == deadline {
        return Err(ContextEnded), probed;
      }
      var locations := Locations(answers[t]);
      assert answers[..t+1][..t] == answers[..t];
      var found;
      found, checked, probed := Visit(locations, namesGateway, works, checked, probed);
      if found.Some? {
        FlattenPrefix(answers, t + 1, Reached(answers, deadline));
        FirstInPrefix(Flatten(answers[..t]), locations, found.value,
                      Flatten(answers[..Reached(answers, deadline)]), good);
        return Ok(locations[found.value]), probed;
      }
    }
    assert answers[..|answers|] == answers;
    return Err(NoGateway), probed;
  }

  /** All that was answered, search after search, is there in order. */
  lemma {:induction false} FlattenIsConcatenation(answers: seq<Option<seq<string>>>, t: nat, k: nat)
    requires t < |answers| && answers[t].Some? && k < |answers[t].value|
    ensures var at := |Flatten(answers[..t])| + k;
            at < |Flatten(answers)| && Flatten(answers)[at] == answers[t].value[k]
    decreases |answers|
  {
    var n := |answers| - 1;
    if t < n {
      FlattenIsConcatenation(answers[..n], t, k);
      assert answers[..n][..t] == answers[..t];
    }
  }

  lemma {:induction false} FlattenIsNothingElse(answers: seq<Option<seq<string>>>, l: string)
    requires l in Flatten(answers)
    ensures exists t :: 0 <= t < |answers| && answers[t].Some? && l in answers[t].value
    decreases |answers|
  {
    var n := |answers| - 1;
    if l in Flatten(answers[..n]) {
      FlattenIsNothingElse(answers[..n], l);
      var t :| 0 <= t < n && answers[..n][t].Some? && l in answers[..n][t].value;
      assert answers[t] == answers[..n][t];
    }
  }

  lemma {:induction false} FlattenPrefix(answers: seq<Option<seq<string>>>, t: nat, n: nat)
    requires t <= n <= |answers|
    ensures Flatten(answers[..t]) <= Flatten(answers[..n])
    decreases n
  {
    if t < n {
      FlattenPrefix(answers, t, n - 1);
      assert answers[..n][..n-1] == answers[..n-1];
    }
  }

  /** Nothing good in earlier searches, nor before it in this one: it is the first of all. */
  lemma FirstInPrefix(before: seq<string>, locations: seq<string>, k: nat, all: seq<string>, good: string -> bool)
    requires before + locations <= all && k < |locations| && good(locations[k])
    requires forall j :: 0 <= j < |before| ==> !good(before[j])
    requires forall j :: 0 <= j < k ==> !good(locations[j])
    ensures FirstGood(all, good, locations[k])
  {
    var i := |before| + k;
    assert forall j :: 0 <= j < |before + locations| ==> all[j] == (before + locations)[j];
    assert all[i] == locations[k];
    assert forall j :: 0 <= j < i ==> !good(all[j]);
  }
}
