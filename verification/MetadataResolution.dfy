/**
  What `resolve_field` decides, stated on the set of events: neither the order of the list nor the second
  latest-clear filter matters, a rejection undoes an assertion, and a retracted event never comes back.
 */
module MetadataResolution {
  import opened Common
  import opened Metadata

  // ---------------------------------------------------------------- reference definition

  // Some event of the log rejects, removes or supersedes the one with this id.
  ghost predicate Retracts(e: Event, id: Id) {
    ((e.op == Reject || e.op == Remove) && e.target == Some(id)) || e.supersedes == Some(id)
  }

  ghost predicate Retracted(log: set<Event>, id: Id) {
    exists e :: e in log && Retracts(e, id)
  }

  ghost predicate Confirmed(log: set<Event>, id: Id) {
    exists e :: e in log && e.op == Confirm && e.target == Some(id)
  }

  ghost predicate Standing(log: set<Event>, e: Event) {
    e in log && IsAssertion(e.op) && !Retracted(log, e.id)
  }

  ghost predicate Accepted(log: set<Event>, policy: AssertionPolicy, e: Event) {
    Standing(log, e) && (policy == Immediate || Confirmed(log, e.id))
  }

  // An accepted CLEAR came after the value.
  ghost predicate Overtaken(log: set<Event>, policy: AssertionPolicy, e: Event) {
    IsValue(e.op) && exists c :: Accepted(log, policy, c) && c.op == Clear && Before(e, c)
  }

  ghost predicate IsCandidate(log: set<Event>, policy: AssertionPolicy, e: Event) {
    Accepted(log, policy, e) && IsValue(e.op) && !Overtaken(log, policy, e)
  }

  ghost predicate IsPending(log: set<Event>, policy: AssertionPolicy, e: Event) {
    Standing(log, e) && policy == RequiresConfirmation && !Confirmed(log, e.id) && !Overtaken(log, policy, e)
  }

  // ---------------------------------------------------------------- the lists are those of the definition

  lemma StatesAre(events: seq<Event>, id: Id)
    ensures id in Targets(events, Reject) + Superseded(events) + Targets(events, Remove) <==> Retracted(Elements(events), id)
    ensures id in Targets(events, Confirm) <==> Confirmed(Elements(events), id)
  {
    var log := Elements(events);
    if e :| e in log && Retracts(e, id) {
      assert e in events;
    }
    if e :| e in log && e.op == Confirm && e.target == Some(id) {
      assert e in events;
    }
    if id in Targets(events, Reject) + Superseded(events) + Targets(events, Remove) {
      var e :| e in events && Retracts(e, id);
      assert e in log;
    }
    if id in Targets(events, Confirm) {
      var e :| e in events && e.op == Confirm && e.target == Some(id);
      assert e in log;
    }
  }

  function FirstClears(events: seq<Event>, policy: AssertionPolicy): seq<Event> {
    var rejected := Targets(events, Reject);
    Clears(Eligible(Assertions(events, rejected + Superseded(events) + Targets(events, Remove)), policy, Targets(events, Confirm) - rejected))
  }

  lemma FirstClearsAre(events: seq<Event>, policy: AssertionPolicy, c: Event)
    ensures c in FirstClears(events, policy) <==> Accepted(Elements(events), policy, c) && c.op == Clear
  {
    StatesAre(events, c.id);
  }

  lemma HiddenAre(events: seq<Event>, policy: AssertionPolicy, e: Event)
    requires Distinct(events) && e in events
    ensures e.id in Hidden(events, FirstClears(events, policy)) <==> Overtaken(Elements(events), policy, e)
  {
    var clears := FirstClears(events, policy);
    forall c ensures c in clears <==> Accepted(Elements(events), policy, c) && c.op == Clear {
      FirstClearsAre(events, policy, c);
    }
    if e.id in Hidden(events, clears) {
      var f :| f in events && IsValue(f.op) && Before(f, Latest(clears)) && f.id == e.id;
      SameId(events, e, f);
    }
    if Overtaken(Elements(events), policy, e) {
      var c :| Accepted(Elements(events), policy, c) && c.op == Clear && Before(e, c);
      assert c in clears;
      assert Before(e, Latest(clears));
    }
  }

  lemma ActiveAre(events: seq<Event>, policy: AssertionPolicy, e: Event)
    requires Distinct(events)
    ensures e in ActiveEvents(events, DeriveEventStates(events, policy))
      <==> Standing(Elements(events), e) && !Overtaken(Elements(events), policy, e)
  {
    StatesAre(events, e.id);
    if e in events {
      HiddenAre(events, policy, e);
    }
  }

  lemma EligibleAre(events: seq<Event>, policy: AssertionPolicy, e: Event)
    requires Distinct(events)
    ensures e in EligibleEvents(events, policy) <==> Accepted(Elements(events), policy, e) && !Overtaken(Elements(events), policy, e)
  {
    ActiveAre(events, policy, e);
    StatesAre(events, e.id);
  }

  lemma PendingAre(events: seq<Event>, policy: AssertionPolicy, e: Event)
    requires Distinct(events)
    ensures e in PendingEvents(events, policy) <==> IsPending(Elements(events), policy, e)
  {
    ActiveAre(events, policy, e);
    StatesAre(events, e.id);
  }

  lemma AfterEveryClear(events: seq<Event>, policy: AssertionPolicy, e: Event)
    requires Distinct(events) && e in EligibleEvents(events, policy) && IsValue(e.op)
    ensures var clears := Clears(EligibleEvents(events, policy)); clears == [] || Before(Latest(clears), e)
  {
    EligibleAre(events, policy, e);
    var clears := Clears(EligibleEvents(events, policy));
    if clears != [] {
      var c := Latest(clears);
      EligibleAre(events, policy, c);
      assert !Before(e, c);
      if c.id == e.id {
        SameId(events, c, e);
      }
    }
  }

  // The values among the eligible events: what remains without the second latest-clear filter.
  function EligibleValues(events: seq<Event>, policy: AssertionPolicy): seq<Event> {
    var eligible := EligibleEvents(events, policy);
    Among(eligible, set e | e in eligible && IsValue(e.op))
  }

  lemma FilterIsRedundant(eligible: seq<Event>, clears: seq<Event>)
    requires forall e :: e in eligible && IsValue(e.op) ==> clears == [] || Before(Latest(clears), e)
    ensures (set e | e in eligible && IsValue(e.op) && (clears == [] || Before(Latest(clears), e))) == (set e | e in eligible && IsValue(e.op))
  {
  }

  // The second latest-clear filter removes nothing.
  lemma SecondClearFilterIsRedundant(events: seq<Event>, policy: AssertionPolicy)
    requires Distinct(events)
    ensures Candidates(events, policy) == EligibleValues(events, policy)
  {
    var eligible := EligibleEvents(events, policy);
    var clears := Clears(eligible);
    forall e | e in eligible && IsValue(e.op) ensures clears == [] || Before(Latest(clears), e) {
      AfterEveryClear(events, policy, e);
    }
    FilterIsRedundant(eligible, clears);
  }

  lemma CandidatesAre(events: seq<Event>, policy: AssertionPolicy, e: Event)
    requires Distinct(events)
    ensures e in Candidates(events, policy) <==> IsCandidate(Elements(events), policy, e)
  {
    SecondClearFilterIsRedundant(events, policy);
    EligibleAre(events, policy, e);
  }

  lemma ListsDistinct(events: seq<Event>, policy: AssertionPolicy)
    requires Distinct(events)
    ensures Distinct(Candidates(events, policy)) && Distinct(PendingEvents(events, policy))
  {
    var states := DeriveEventStates(events, policy);
    var active := ActiveEvents(events, states);
    AmongDistinct(events, set e | e in events && IsAssertion(e.op) && e.id !in states.rejected + states.superseded + states.invalidated);
    AmongDistinct(active, set e | e in active && policy == RequiresConfirmation && e.id !in states.confirmed);
    AmongDistinct(active, set e | e in active && e.id in states.confirmed);
    var eligible := EligibleEvents(events, policy);
    var clears := Clears(eligible);
    AmongDistinct(eligible, set e | e in eligible && IsValue(e.op) && (clears == [] || Before(Latest(clears), e)));
  }

  // ---------------------------------------------------------------- the order of the list

  // The two lists hold the same events, each once: one is a permutation of the other.
  ghost predicate SameEvents(a: seq<Event>, b: seq<Event>) {
    Distinct(a) && Distinct(b) && Elements(a) == Elements(b)
  }

  lemma SameWithRank(a: seq<Event>, b: seq<Event>, rank: nat)
    requires SameEvents(a, b)
    ensures SameEvents(WithRank(a, rank), WithRank(b, rank))
  {
    AmongDistinct(a, set e | e in a && Rank(e) == rank);
    AmongDistinct(b, set e | e in b && Rank(e) == rank);
    forall e ensures e in WithRank(a, rank) <==> e in WithRank(b, rank) {
      assert e in a <==> e in Elements(a);
      assert e in b <==> e in Elements(b);
    }
  }

  lemma {:induction false} IncreasingUnique(a: seq<nat>, b: seq<nat>)
    requires Increasing(a) && Increasing(b) && forall x :: x in a <==> x in b
    ensures a == b
  {
    assert b != [] ==> b[0] in a;
    if a != [] {
      assert a[0] in b && b[0] in a;
      assert a[0] == b[0];
      assert a == [a[0]] + a[1..] && b == [b[0]] + b[1..];
      HeadFirst(a[0], a[1..]);
      HeadFirst(b[0], b[1..]);
      forall x ensures x in a[1..] <==> x in b[1..] {
        assert x in a[1..] <==> x in a && x != a[0];
        assert x in b[1..] <==> x in b && x != b[0];
      }
      IncreasingUnique(a[1..], b[1..]);
    }
  }

  lemma SameRanks(a: seq<Event>, b: seq<Event>)
    requires SameEvents(a, b)
    ensures Ranks(a) == Ranks(b)
  {
    RanksAscend(a);
    RanksAscend(b);
    assert forall e :: e in a <==> e in Elements(a);
    assert forall e :: e in b <==> e in Elements(b);
    IncreasingUnique(Ranks(a), Ranks(b));
  }

  lemma SameSupported(a: seq<Event>, b: seq<Event>)
    requires SameEvents(a, b) && a != [] && b != []
    ensures Supported(a) == Supported(b)
  {
    LatestUnique(a, b);
    SortedUnique(a, b);
  }

  lemma SameGroups(a: seq<Event>, b: seq<Event>)
    requires SameEvents(a, b)
    ensures GroupedValues(a) == GroupedValues(b)
  {
    SameRanks(a, b);
    RankedGroups(a);
    RankedGroups(b);
    forall k | 0 <= k < |Ranks(a)| ensures Supported(WithRank(a, Ranks(a)[k])) == Supported(WithRank(b, Ranks(b)[k])) {
      SameWithRank(a, b, Ranks(a)[k]);
      SameSupported(WithRank(a, Ranks(a)[k]), WithRank(b, Ranks(b)[k]));
    }
  }

  lemma SameHuman(a: seq<Event>, b: seq<Event>)
    requires SameEvents(a, b)
    ensures SameEvents(ByHuman(a), ByHuman(b))
  {
    AmongDistinct(a, set e | e in a && e.source == Human);
    AmongDistinct(b, set e | e in b && e.source == Human);
    forall e ensures e in ByHuman(a) <==> e in ByHuman(b) {
      assert e in a <==> e in Elements(a);
      assert e in b <==> e in Elements(b);
    }
  }

  lemma SameChoice(a: seq<Event>, b: seq<Event>)
    requires SameEvents(a, b) && a != [] && b != []
    ensures Latest(a) == Latest(b)
    ensures Latest(Preferred(a)) == Latest(Preferred(b))
  {
    LatestUnique(a, b);
    SameHuman(a, b);
    NoElements(ByHuman(a));
    NoElements(ByHuman(b));
    if ByHuman(a) != [] {
      LatestUnique(ByHuman(a), ByHuman(b));
    }
  }

  // Two resolutions that differ at most in the order of the pending events.
  ghost predicate Alike(r: FieldResolution, q: FieldResolution) {
    && r.state == q.state && r.conflicting == q.conflicting && SameEvents(r.pending, q.pending)
    && (r.state != Pending ==> r.values == q.values)
    && (r.state == Pending ==> r.values == EachAlone(r.pending) && q.values == EachAlone(q.pending))
  }

  lemma NoCandidates(p: seq<Event>, q: seq<Event>, definition: Definition)
    requires SameEvents(p, q)
    ensures Alike(Resolution([], p, definition), Resolution([], q, definition))
  {
    NoElements(p);
    NoElements(q);
  }

  lemma SameChoiceAlike(groups: seq<ResolvedValue>, latest: Event, preferred: Event, ids: seq<Id>, p: seq<Event>, q: seq<Event>, definition: Definition)
    requires SameEvents(p, q)
    ensures Alike(Choice(groups, latest, preferred, ids, p, definition), Choice(groups, latest, preferred, ids, q, definition))
  {
  }

  lemma SameResolution(a: seq<Event>, b: seq<Event>, p: seq<Event>, q: seq<Event>, definition: Definition)
    requires SameEvents(a, b) && SameEvents(p, q)
    ensures Alike(Resolution(a, p, definition), Resolution(b, q, definition))
  {
    NoElements(a);
    NoElements(b);
    if a == [] {
      NoCandidates(p, q, definition);
    } else {
      SameGroups(a, b);
      SameChoice(a, b);
      SortedUnique(a, b);
      SameChoiceAlike(GroupedValues(a), Latest(a), Latest(Preferred(a)), Ids(Sorted(a)), p, q, definition);
    }
  }

  lemma SameCandidates(events: seq<Event>, others: seq<Event>, policy: AssertionPolicy)
    requires SameEvents(events, others)
    ensures SameEvents(Candidates(events, policy), Candidates(others, policy))
    ensures SameEvents(PendingEvents(events, policy), PendingEvents(others, policy))
  {
    ListsDistinct(events, policy);
    ListsDistinct(others, policy);
    forall e ensures e in Candidates(events, policy) <==> e in Candidates(others, policy) {
      CandidatesAre(events, policy, e);
      CandidatesAre(others, policy, e);
    }
    forall e ensures e in PendingEvents(events, policy) <==> e in PendingEvents(others, policy) {
      PendingAre(events, policy, e);
      PendingAre(others, policy, e);
    }
  }

  // The order in which the events are read does not matter.
  lemma ResolutionIgnoresOrder(events: seq<Event>, others: seq<Event>, definition: Definition)
    requires SameEvents(events, others)
    ensures Alike(Resolve(events, definition), Resolve(others, definition))
  {
    SameCandidates(events, others, definition.assertionPolicy);
    SameResolution(Candidates(events, definition.assertionPolicy), Candidates(others, definition.assertionPolicy),
                   PendingEvents(events, definition.assertionPolicy), PendingEvents(others, definition.assertionPolicy), definition);
  }
}
