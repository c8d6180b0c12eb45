/** Laws of the metadata log: what a retraction does, for how long, and what the resolved values stand for. */
module MetadataLaws {
  import opened Common
  import opened Metadata
  import opened MetadataResolution

  // ---------------------------------------------------------------- what a resolution mentions

  ghost predicate ValueMentions(v: ResolvedValue, id: Id) {
    v.event.id == id || id in v.supporting
  }

  // The id appears as a value, as support of one, as pending or as conflicting.
  ghost predicate Mentions(r: FieldResolution, id: Id) {
    || (exists k :: 0 <= k < |r.values| && ValueMentions(r.values[k], id))
    || HasId(r.pending, id)
    || id in r.conflicting
  }

  ghost predicate HasId(events: seq<Event>, id: Id) {
    exists e :: e in events && e.id == id
  }

  lemma IdsAre(events: seq<Event>, id: Id)
    ensures id in Ids(events) <==> HasId(events, id)
  {
    if HasId(events, id) {
      var e :| e in events && e.id == id;
      var k :| 0 <= k < |events| && events[k] == e;
      assert Ids(events)[k] == id;
    }
    if id in Ids(events) {
      var k :| 0 <= k < |events| && Ids(events)[k] == id;
      assert events[k] in events;
    }
  }

  lemma SupportedMentions(group: seq<Event>, id: Id)
    requires group != []
    ensures id in Supported(group).supporting <==> HasId(group, id)
  {
    IdsAre(Sorted(group), id);
  }

  // Value k stands for the events that carry it.
  lemma GroupOf(events: seq<Event>, k: nat)
    requires k < |GroupedValues(events)|
    ensures |GroupedValues(events)| == |Ranks(events)|
    ensures var v, group := GroupedValues(events)[k], WithRank(events, Ranks(events)[k]);
      group != [] && v == Supported(group) && v.event in events && Rank(v.event) == Ranks(events)[k]
  {
    RankedGroups(events);
  }

  lemma GroupsMention(events: seq<Event>, k: nat, id: Id)
    requires k < |GroupedValues(events)|
    requires ValueMentions(GroupedValues(events)[k], id)
    ensures HasId(events, id)
  {
    GroupOf(events, k);
    SupportedMentions(WithRank(events, Ranks(events)[k]), id);
  }

  lemma ChoiceMentions(groups: seq<ResolvedValue>, latest: Event, preferred: Event, ids: seq<Id>, pending: seq<Event>,
                       definition: Definition, id: Id)
    requires Mentions(Choice(groups, latest, preferred, ids, pending, definition), id)
    ensures (exists k :: 0 <= k < |groups| && ValueMentions(groups[k], id))
      || latest.id == id || preferred.id == id || id in ids || HasId(pending, id)
  {
  }

  lemma EachAloneMentions(events: seq<Event>, k: nat, id: Id)
    requires k < |events| && ValueMentions(EachAlone(events)[k], id)
    ensures HasId(events, id)
  {
    assert events[k] in events;
  }

  lemma ResolutionMentions(candidates: seq<Event>, pending: seq<Event>, definition: Definition, id: Id)
    requires Mentions(Resolution(candidates, pending, definition), id)
    ensures HasId(candidates, id) || HasId(pending, id)
  {
    if candidates == [] {
      if k :| 0 <= k < |pending| && ValueMentions(EachAlone(pending)[k], id) {
        EachAloneMentions(pending, k, id);
      }
    } else {
      var groups, latest, preferred := GroupedValues(candidates), Latest(candidates), Latest(Preferred(candidates));
      ChoiceMentions(groups, latest, preferred, Ids(Sorted(candidates)), pending, definition, id);
      IdsAre(Sorted(candidates), id);
      assert latest in candidates && preferred in candidates;
      if k :| 0 <= k < |groups| && ValueMentions(groups[k], id) {
        GroupsMention(candidates, k, id);
      }
    }
  }

  // ---------------------------------------------------------------- what the values stand for

  ghost predicate AllAgree(events: seq<Event>) {
    forall e, f :: e in events && f in events ==> Rank(e) == Rank(f)
  }

  lemma OneGroup(events: seq<Event>)
    requires events != []
    ensures |GroupedValues(events)| >= 1
    ensures |GroupedValues(events)| == 1 <==> AllAgree(events)
  {
    RanksAscend(events);
    RankedGroups(events);
    var ranks := Ranks(events);
    assert events[0] in events && Rank(events[0]) in ranks;
    if |ranks| > 1 {
      assert ranks[0] in ranks && ranks[1] in ranks && ranks[0] < ranks[1];
      var e :| e in events && Rank(e) == ranks[0];
      var f :| f in events && Rank(f) == ranks[1];
      assert !AllAgree(events);
    }
    if |ranks| == 1 {
      forall e, f | e in events && f in events ensures Rank(e) == Rank(f) {
        assert Rank(e) in ranks && Rank(f) in ranks;
      }
    }
  }

  // The values are exactly those the candidates carry, in ascending order and each once; every candidate
  // supports the one value it carries, and no other event supports any.
  lemma SupportPartitionsCandidates(candidates: seq<Event>)
    requires Distinct(candidates)
    ensures var values := GroupedValues(candidates);
      && (forall i, j :: 0 <= i < j < |values| ==> Rank(values[i].event) < Rank(values[j].event))
      && (forall e :: e in candidates ==> exists k :: 0 <= k < |values| && Rank(values[k].event) == Rank(e))
      && (forall k, e :: 0 <= k < |values| && e in candidates ==>
            (e.id in values[k].supporting <==> Rank(e) == Rank(values[k].event)))
      && (forall k, id :: 0 <= k < |values| && id in values[k].supporting ==> HasId(candidates, id))
  {
    var values := GroupedValues(candidates);
    var ranks := Ranks(candidates);
    RanksAscend(candidates);
    RankedGroups(candidates);
    forall k | 0 <= k < |values| ensures Rank(values[k].event) == ranks[k] {
      GroupOf(candidates, k);
    }
    forall e | e in candidates ensures exists k :: 0 <= k < |values| && Rank(values[k].event) == Rank(e) {
      assert Rank(e) in ranks;
      var k :| 0 <= k < |ranks| && ranks[k] == Rank(e);
      assert Rank(values[k].event) == Rank(e);
    }
    forall k, e | 0 <= k < |values| && e in candidates
      ensures e.id in values[k].supporting <==> Rank(e) == Rank(values[k].event)
    {
      GroupOf(candidates, k);
      SupportMember(candidates, ranks[k], e);
    }
    forall k, id | 0 <= k < |values| && id in values[k].supporting ensures HasId(candidates, id) {
      GroupsMention(candidates, k, id);
    }
  }

  lemma SupportMember(events: seq<Event>, rank: nat, e: Event)
    requires Distinct(events) && e in events && WithRank(events, rank) != []
    ensures e.id in Supported(WithRank(events, rank)).supporting <==> Rank(e) == rank
  {
    var group := WithRank(events, rank);
    SupportedMentions(group, e.id);
    if HasId(group, e.id) {
      var f :| f in group && f.id == e.id;
      SameId(events, e, f);
    }
  }

  // A single-valued field shows one value unless explicit agreement is missing, and then it shows them all.
  lemma SingleFieldStates(candidates: seq<Event>, pending: seq<Event>, definition: Definition)
    requires definition.cardinality == Single
    ensures var r := Resolution(candidates, pending, definition);
      && (r.state == Value ==> |r.values| == 1)
      && (r.state == Conflicted <==> definition.resolutionPolicy == ExplicitOnly && !AllAgree(candidates))
      && (r.state == Value <==> candidates != [] && (definition.resolutionPolicy == ExplicitOnly ==> AllAgree(candidates)))
      && (r.state == Conflicted ==> |r.values| >= 2)
  {
    if candidates != [] {
      OneGroup(candidates);
    }
  }

  // LATEST_VALID shows the candidate after all others, HUMAN_PRECEDENCE the human one after all human ones.
  lemma LatestCandidateWins(candidates: seq<Event>, pending: seq<Event>, definition: Definition)
    requires Distinct(candidates) && candidates != [] && definition.cardinality == Single && definition.resolutionPolicy != ExplicitOnly
    ensures var r := Resolution(candidates, pending, definition);
      && |r.values| == 1 && r.values[0].event in candidates && r.values[0].supporting == [r.values[0].event.id]
      && forall e :: e in candidates ==>
           e == r.values[0].event || Before(e, r.values[0].event)
           || (definition.resolutionPolicy == HumanPrecedence && r.values[0].event.source == Human && e.source != Human)
  {
    var chosen := Resolution(candidates, pending, definition).values[0].event;
    forall e | e in candidates && e.id == chosen.id ensures e == chosen {
      SameId(candidates, e, chosen);
    }
    if definition.resolutionPolicy == HumanPrecedence && ByHuman(candidates) == [] {
      forall e | e in candidates ensures e.source != Human {
        assert e !in ByHuman(candidates);
      }
    }
  }

  // ---------------------------------------------------------------- retraction is permanent

  lemma RetractedForGood(log: set<Event>, later: set<Event>, id: Id)
    requires Retracted(log, id) && log <= later
    ensures Retracted(later, id)
  {
  }

  // Once rejected, removed or superseded, an event is not mentioned by the resolution of any longer log.
  lemma RetractionIsPermanent(events: seq<Event>, later: seq<Event>, definition: Definition, id: Id)
    requires Retracted(Elements(events), id) && Elements(events) <= Elements(later) && Distinct(later)
    ensures !Mentions(Resolve(later, definition), id)
  {
    var policy := definition.assertionPolicy;
    RetractedForGood(Elements(events), Elements(later), id);
    if Mentions(Resolve(later, definition), id) {
      ResolutionMentions(Candidates(later, policy), PendingEvents(later, policy), definition, id);
      if HasId(Candidates(later, policy), id) {
        var e :| e in Candidates(later, policy) && e.id == id;
        CandidatesAre(later, policy, e);
      } else {
        var e :| e in PendingEvents(later, policy) && e.id == id;
        PendingAre(later, policy, e);
      }
    }
  }

  // ---------------------------------------------------------------- rejection undoes

  lemma AmongSnoc(events: seq<Event>, e: Event, chosen: set<Event>)
    ensures Among(events + [e], chosen) == Among(events, chosen) + if e in chosen then [e] else []
  {
    assert (events + [e])[..|events|] == events;
  }

  lemma {:induction false} AmongAmong(events: seq<Event>, a: set<Event>, b: set<Event>)
    ensures Among(Among(events, a), b) == Among(events, a * b)
  {
    if events != [] {
      var front, e := events[..|events| - 1], events[|events| - 1];
      assert events == front + [e];
      AmongAmong(front, a, b);
      AmongSnoc(front, e, a);
      AmongSnoc(front, e, a * b);
      if e in a {
        AmongSnoc(Among(front, a), e, b);
      } else {
        assert Among(events, a) == Among(front, a) && Among(events, a * b) == Among(front, a * b);
      }
    } else {
      assert Among(events, a) == [] && Among(events, a * b) == [];
    }
  }

  lemma {:induction false} AmongSame(events: seq<Event>, a: set<Event>, b: set<Event>)
    requires forall e :: e in events ==> (e in a <==> e in b)
    ensures Among(events, a) == Among(events, b)
  {
    if events != [] {
      assert events[|events| - 1] in events;
      AmongSame(events[..|events| - 1], a, b);
    }
  }

  ghost function CandidateSet(log: set<Event>, policy: AssertionPolicy): set<Event> {
    set e | e in log && IsCandidate(log, policy, e)
  }

  ghost function PendingSet(log: set<Event>, policy: AssertionPolicy): set<Event> {
    set e | e in log && IsPending(log, policy, e)
  }

  // The lists are the log, filtered.
  lemma CandidatesFilter(events: seq<Event>, policy: AssertionPolicy)
    requires Distinct(events)
    ensures Candidates(events, policy) == Among(events, CandidateSet(Elements(events), policy))
  {
    var states := DeriveEventStates(events, policy);
    var active := ActiveEvents(events, states);
    var a := set e | e in events && IsAssertion(e.op) && e.id !in states.rejected + states.superseded + states.invalidated;
    var eligible := EligibleEvents(events, policy);
    var b := set e | e in active && e.id in states.confirmed;
    var clears := Clears(eligible);
    var c := set e | e in eligible && IsValue(e.op) && (clears == [] || Before(Latest(clears), e));
    if policy == RequiresConfirmation {
      AmongAmong(events, a, b);
      AmongAmong(events, a * b, c);
    } else {
      AmongAmong(events, a, c);
    }
    var all := if policy == Immediate then a * c else (a * b) * c;
    assert Candidates(events, policy) == Among(events, all);
    forall e | e in events ensures e in all <==> e in CandidateSet(Elements(events), policy) {
      CandidatesAre(events, policy, e);
      assert e in Among(events, all) <==> e in Candidates(events, policy);
    }
    AmongSame(events, all, CandidateSet(Elements(events), policy));
  }

  lemma PendingFilter(events: seq<Event>, policy: AssertionPolicy)
    requires Distinct(events)
    ensures PendingEvents(events, policy) == Among(events, PendingSet(Elements(events), policy))
  {
    var states := DeriveEventStates(events, policy);
    var active := ActiveEvents(events, states);
    var a := set e | e in events && IsAssertion(e.op) && e.id !in states.rejected + states.superseded + states.invalidated;
    var b := set e | e in active && policy == RequiresConfirmation && e.id !in states.confirmed;
    AmongAmong(events, a, b);
    forall e | e in events ensures e in a * b <==> e in PendingSet(Elements(events), policy) {
      PendingAre(events, policy, e);
      assert e in Among(events, a * b) <==> e in PendingEvents(events, policy);
    }
    AmongSame(events, a * b, PendingSet(Elements(events), policy));
  }

  // An assertion and its rejection, wherever they stand in the log.
  predicate RejectedPair(assertion: Event, rejection: Event) {
    IsAssertion(assertion.op) && rejection.op == Reject && rejection.target == Some(assertion.id)
  }

  // The ids that the pair supersedes.
  function TakenOut(a: Event, r: Event): set<Id> {
    set e | e in {a, r} && e.supersedes.Some? :: e.supersedes.value
  }

  // One of these events is a candidate or pending.
  ghost predicate SomeShown(log: set<Event>, policy: AssertionPolicy, ids: set<Id>) {
    exists e: Event :: e.id in ids && (IsCandidate(log, policy, e) || IsPending(log, policy, e))
  }

  // These events alone hide a standing value: every accepted CLEAR after it is one of them.
  ghost predicate HiddenBy(log: set<Event>, policy: AssertionPolicy, ids: set<Id>, e: Event) {
    && Standing(log, e) && IsValue(e.op) && e.id !in ids && Overtaken(log, policy, e)
    && forall c :: Accepted(log, policy, c) && c.op == Clear && Before(e, c) ==> c.id in ids
  }

  // Taking these events out of the log makes no difference to what it shows.
  ghost predicate Dispensable(log: set<Event>, policy: AssertionPolicy, ids: set<Id>) {
    !SomeShown(log, policy, ids) && !exists e :: HiddenBy(log, policy, ids, e)
  }

  // The pair and the rest of the log, which has other ids.
  ghost predicate PairApart(log: set<Event>, a: Event, r: Event) {
    RejectedPair(a, r) && forall f :: f in log ==> f.id != a.id
  }

  lemma PairRetracts(log: set<Event>, a: Event, r: Event, id: Id)
    requires RejectedPair(a, r)
    ensures Retracted(log + {a, r}, id) <==> Retracted(log, id) || id == a.id || id in TakenOut(a, r)
    ensures Confirmed(log + {a, r}, id) <==> Confirmed(log, id)
  {
    assert Retracts(r, a.id) && r in log + {a, r};
    if id in TakenOut(a, r) {
      var e :| e in {a, r} && e.supersedes == Some(id);
      assert Retracts(e, id) && e in log + {a, r};
    }
  }

  lemma PairAccepts(log: set<Event>, policy: AssertionPolicy, a: Event, r: Event, e: Event)
    requires PairApart(log, a, r)
    ensures Standing(log + {a, r}, e) <==> Standing(log, e) && e.id !in TakenOut(a, r)
    ensures Accepted(log + {a, r}, policy, e) <==> Accepted(log, policy, e) && e.id !in TakenOut(a, r)
  {
    PairRetracts(log, a, r, e.id);
  }

  lemma PairOvertakes(log: set<Event>, policy: AssertionPolicy, a: Event, r: Event, e: Event)
    requires PairApart(log, a, r)
    ensures Overtaken(log + {a, r}, policy, e) <==>
      IsValue(e.op) && exists c :: Accepted(log, policy, c) && c.id !in TakenOut(a, r) && c.op == Clear && Before(e, c)
  {
    forall c ensures Accepted(log + {a, r}, policy, c) <==> Accepted(log, policy, c) && c.id !in TakenOut(a, r) {
      PairAccepts(log, policy, a, r, c);
    }
  }

  // Where no value is hidden by the superseded events alone, the same values are overtaken.
  lemma PairHidesAlike(log: set<Event>, policy: AssertionPolicy, a: Event, r: Event, e: Event)
    requires PairApart(log, a, r) && Standing(log, e) && e.id !in TakenOut(a, r) && !HiddenBy(log, policy, TakenOut(a, r), e)
    ensures Overtaken(log + {a, r}, policy, e) <==> Overtaken(log, policy, e)
  {
    PairOvertakes(log, policy, a, r, e);
  }

  lemma PairSets(log: set<Event>, policy: AssertionPolicy, a: Event, r: Event)
    requires PairApart(log, a, r) && Dispensable(log, policy, TakenOut(a, r))
    ensures CandidateSet(log + {a, r}, policy) == CandidateSet(log, policy)
    ensures PendingSet(log + {a, r}, policy) == PendingSet(log, policy)
  {
    forall e
      ensures IsCandidate(log + {a, r}, policy, e) <==> IsCandidate(log, policy, e)
      ensures IsPending(log + {a, r}, policy, e) <==> IsPending(log, policy, e)
    {
      PairAccepts(log, policy, a, r, e);
      PairRetracts(log, a, r, e.id);
      if Standing(log, e) && e.id !in TakenOut(a, r) {
        PairHidesAlike(log, policy, a, r, e);
      }
    }
  }

  // A value that only the superseded events hid is shown again.
  lemma HiddenValueReturns(log: set<Event>, policy: AssertionPolicy, a: Event, r: Event, e: Event)
    requires PairApart(log, a, r) && HiddenBy(log, policy, TakenOut(a, r), e)
    ensures !IsCandidate(log, policy, e) && !IsPending(log, policy, e)
    ensures IsCandidate(log + {a, r}, policy, e) || IsPending(log + {a, r}, policy, e)
  {
    PairAccepts(log, policy, a, r, e);
    PairRetracts(log, a, r, e.id);
    PairOvertakes(log, policy, a, r, e);
  }

  // A rejected pair leaves candidates and pending events as they are exactly if the events it supersedes are
  // dispensable: none of them is shown, and none hides a value that nothing else hides.
  lemma RejectionUndoesExactly(log: set<Event>, policy: AssertionPolicy, a: Event, r: Event)
    requires PairApart(log, a, r)
    ensures CandidateSet(log + {a, r}, policy) == CandidateSet(log, policy) && PendingSet(log + {a, r}, policy) == PendingSet(log, policy)
      <==> Dispensable(log, policy, TakenOut(a, r))
  {
    if Dispensable(log, policy, TakenOut(a, r)) {
      PairSets(log, policy, a, r);
    } else if SomeShown(log, policy, TakenOut(a, r)) {
      var e: Event :| e.id in TakenOut(a, r) && (IsCandidate(log, policy, e) || IsPending(log, policy, e));
      PairAccepts(log, policy, a, r, e);
      assert e in CandidateSet(log, policy) || e in PendingSet(log, policy);
      assert e !in CandidateSet(log + {a, r}, policy) && e !in PendingSet(log + {a, r}, policy);
    } else {
      var e :| HiddenBy(log, policy, TakenOut(a, r), e);
      HiddenValueReturns(log, policy, a, r, e);
      assert e !in CandidateSet(log, policy) && e !in PendingSet(log, policy);
      assert e in CandidateSet(log + {a, r}, policy) || e in PendingSet(log + {a, r}, policy);
    }
  }

  // Events that are retracted anyway are dispensable; so is no event at all.
  lemma RetractedIsDispensable(log: set<Event>, policy: AssertionPolicy, ids: set<Id>)
    requires forall id :: id in ids ==> Retracted(log, id)
    ensures Dispensable(log, policy, ids)
  {
  }

  lemma AmongRest(events: seq<Event>, dropped: set<Event>, chosen: set<Event>)
    requires chosen <= Elements(events) - dropped
    ensures Among(Among(events, Elements(events) - dropped), chosen) == Among(events, chosen)
  {
    AmongAmong(events, Elements(events) - dropped, chosen);
    assert (Elements(events) - dropped) * chosen == chosen;
  }

  // A rejected assertion leaves no trace if what it supersedes is dispensable, as it is when it supersedes nothing:
  // without it and its rejection the log resolves to the same.  In particular a rejected CLEAR revives what it hid.
  lemma RejectionUndoes(events: seq<Event>, a: Event, r: Event, definition: Definition)
    requires Distinct(events) && a in events && r in events && RejectedPair(a, r)
    requires Dispensable(Elements(events) - {a, r}, definition.assertionPolicy, TakenOut(a, r))
    ensures Resolve(events, definition) == Resolve(Among(events, Elements(events) - {a, r}), definition)
  {
    var policy := definition.assertionPolicy;
    var log := Elements(events) - {a, r};
    var rest := Among(events, log);
    AmongDistinct(events, log);
    assert Elements(rest) == log && Elements(events) == log + {a, r};
    forall f | f in log ensures f.id != a.id {
      if f.id == a.id {
        SameId(events, f, a);
      }
    }
    PairSets(log, policy, a, r);
    CandidatesFilter(events, policy);
    CandidatesFilter(rest, policy);
    PendingFilter(events, policy);
    PendingFilter(rest, policy);
    AmongRest(events, {a, r}, CandidateSet(log, policy));
    AmongRest(events, {a, r}, PendingSet(log, policy));
  }

  lemma PlainRejectionUndoes(events: seq<Event>, a: Event, r: Event, definition: Definition)
    requires Distinct(events) && a in events && r in events && RejectedPair(a, r)
    requires forall id :: id in TakenOut(a, r) ==> Retracted(Elements(events) - {a, r}, id)
    ensures Resolve(events, definition) == Resolve(Among(events, Elements(events) - {a, r}), definition)
  {
    RetractedIsDispensable(Elements(events) - {a, r}, definition.assertionPolicy, TakenOut(a, r));
    RejectionUndoes(events, a, r, definition);
  }

  lemma OnlyEvent(first: Event)
    requires IsValue(first.op) && first.target == None && first.supersedes == None
    ensures IsCandidate({first}, Immediate, first)
  {
    assert !Retracted({first}, first.id);
    assert !Overtaken({first}, Immediate, first);
  }

  lemma NoneStands(log: set<Event>, first: Event, second: Event, rejection: Event, e: Event)
    requires log == {first, second, rejection}
    requires second.supersedes == Some(first.id) && rejection.op == Reject && rejection.target == Some(second.id)
    ensures !Standing(log, e)
  {
    assert Retracts(second, first.id) && Retracts(rejection, second.id);
  }

  lemma ValueShown(candidates: seq<Event>, pending: seq<Event>, definition: Definition)
    requires candidates != [] && AllAgree(candidates)
    ensures Resolution(candidates, pending, definition).state == Value
  {
    OneGroup(candidates);
  }

  lemma FirstShown(events: seq<Event>, first: Event, definition: Definition)
    requires Distinct(events) && Elements(events) == {first}
    requires IsValue(first.op) && first.target == None && first.supersedes == None && definition.assertionPolicy == Immediate
    ensures Resolve(events, definition).state == Value
  {
    var policy := definition.assertionPolicy;
    OnlyEvent(first);
    CandidatesAre(events, policy, first);
    forall e | e in Candidates(events, policy) ensures e == first {
      CandidatesAre(events, policy, e);
    }
    ValueShown(Candidates(events, policy), PendingEvents(events, policy), definition);
  }

  // An assertion that supersedes a shown value takes it out for good, even when it is rejected itself.
  lemma RejectedReplacementRevivesNothing(before: seq<Event>, after: seq<Event>, first: Event, second: Event, rejection: Event, definition: Definition)
    requires Distinct(before) && Elements(before) == {first}
    requires Distinct(after) && Elements(after) == {first, second, rejection} && definition.assertionPolicy == Immediate
    requires IsValue(first.op) && first.target == None && first.supersedes == None
    requires IsValue(second.op) && second.target == None && second.supersedes == Some(first.id)
    requires rejection.op == Reject && rejection.target == Some(second.id) && rejection.supersedes == None
    ensures Resolve(before, definition).state == Value && Resolve(after, definition).state == Empty
  {
    FirstShown(before, first, definition);
    var policy := definition.assertionPolicy;
    forall e ensures e !in Candidates(after, policy) && e !in PendingEvents(after, policy) {
      NoneStands(Elements(after), first, second, rejection, e);
      CandidatesAre(after, policy, e);
      PendingAre(after, policy, e);
    }
    NoElements(Candidates(after, policy));
    NoElements(PendingEvents(after, policy));
  }
}
