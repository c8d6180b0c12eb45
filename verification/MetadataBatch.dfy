/** The batch of `apply_metadata_values` and what a multi-valued field shows after it. */
module MetadataBatch {
  import opened Common
  import opened Metadata
  import opened MetadataResolution
  import opened MetadataLaws
  import opened MetadataStore

  // dict.fromkeys: each value once, at its first place
  function Deduplicated(values: seq<Raw>): (r: seq<Raw>)
    ensures forall v :: v in r <==> v in values
    ensures |r| <= |values|
  {
    if values == [] then []
    else
      var front, last := values[..|values| - 1], values[|values| - 1];
      assert values == front + [last];
      Deduplicated(front) + if last in front then [] else [last]
  }

  // The places of the first occurrences.
  ghost predicate FirstPlaces(values: seq<Raw>, places: seq<nat>) {
    && Increasing(places) && (forall k :: 0 <= k < |places| ==> places[k] < |values|)
    && forall i :: 0 <= i < |values| ==> (i in places <==> values[i] !in values[..i])
  }

  lemma FirstPlacesGrow(values: seq<Raw>, places: seq<nat>)
    requires values != [] && FirstPlaces(values[..|values| - 1], places)
    ensures FirstPlaces(values, places + if values[|values| - 1] in values[..|values| - 1] then [] else [|values| - 1])
  {
    var n := |values| - 1;
    forall i | 0 <= i < n ensures i in places <==> values[i] !in values[..i] {
      assert values[..n][i] == values[i] && values[..n][..i] == values[..i];
    }
    assert n !in places;
  }

  // The values kept are the first occurrences, in order.
  lemma {:induction false} DeduplicatedInOrder(values: seq<Raw>) returns (places: seq<nat>)
    ensures FirstPlaces(values, places) && |places| == |Deduplicated(values)|
    ensures forall k :: 0 <= k < |places| ==> values[places[k]] == Deduplicated(values)[k]
  {
    if values == [] {
      places := [];
    } else {
      var n := |values| - 1;
      var front := DeduplicatedInOrder(values[..n]);
      FirstPlacesGrow(values, front);
      places := front + if values[n] in values[..n] then [] else [n];
    }
  }

  lemma DeduplicatedDistinct(values: seq<Raw>)
    ensures forall i, j :: 0 <= i < j < |Deduplicated(values)| ==> Deduplicated(values)[i] != Deduplicated(values)[j]
  {
    var places := DeduplicatedInOrder(values);
    forall i, j | 0 <= i < j < |Deduplicated(values)| ensures Deduplicated(values)[i] != Deduplicated(values)[j] {
      assert places[j] in places && values[places[j]] !in values[..places[j]];
      assert values[places[i]] == values[..places[j]][places[i]];
    }
  }

  function ClearEvent(d: Id, f: Id, source: Source, id: Id, base: int): Event {
    Event(id, d, f, Clear, map[], source, None, None, base)
  }

  // The ADD of the value at place k, k + 1 microseconds after the base time.
  function AddEvent(d: Id, f: Id, v: Raw, source: Source, id: Id, base: int, k: nat): Event
    requires v.stored.Some?
  {
    Event(id, d, f, Add, map[v.stored.value.0 := v.stored.value.1], source, None, None, base + k + 1)
  }

  predicate AllStored(values: seq<Raw>) {
    forall k :: 0 <= k < |values| ==> values[k].stored.Some?
  }

  function Additions(d: Id, f: Id, values: seq<Raw>, source: Source, ids: seq<Id>, base: int): seq<Event>
    requires AllStored(values) && |values| < |ids|
  {
    seq(|values|, k requires 0 <= k < |values| => AddEvent(d, f, values[k], source, ids[k + 1], base, k))
  }

  function Batch(d: Id, f: Id, values: seq<Raw>, replace: bool, source: Source, ids: seq<Id>, base: int): seq<Event>
    requires AllStored(values) && |values| < |ids|
  {
    (if replace then [ClearEvent(d, f, source, ids[0], base)] else []) + Additions(d, f, values, source, ids, base)
  }

  // Ids that were not used before, each once.
  ghost predicate FreshIds(log: seq<Event>, ids: seq<Id>) {
    && (forall i, j :: 0 <= i < j < |ids| ==> ids[i] != ids[j])
    && (forall e, i :: e in log && 0 <= i < |ids| ==> e.id != ids[i])
  }

  // The id of each event of a batch, and where the events belong.
  lemma BatchAt(d: Id, f: Id, values: seq<Raw>, replace: bool, source: Source, ids: seq<Id>, base: int, i: nat)
    requires AllStored(values) && |values| < |ids| && i < |Batch(d, f, values, replace, source, ids, base)|
    ensures var k := i + if replace then 0 else 1; k < |ids| && Batch(d, f, values, replace, source, ids, base)[i].id == ids[k]
    ensures var e := Batch(d, f, values, replace, source, ids, base)[i];
      e.document == d && e.definition == f && EventShape(e) && e.target == None && e.supersedes == None
  {
  }

  lemma BatchIsShaped(log: seq<Event>, d: Id, f: Id, values: seq<Raw>, replace: bool, source: Source, ids: seq<Id>, base: int, e: Event)
    requires AllStored(values) && |values| < |ids| && e in Batch(d, f, values, replace, source, ids, base)
    ensures e.document == d && e.definition == f && EventShape(e) && RefersInside(log, e)
  {
    var batch := Batch(d, f, values, replace, source, ids, base);
    var i :| 0 <= i < |batch| && batch[i] == e;
    BatchAt(d, f, values, replace, source, ids, base, i);
  }

  lemma BatchIsFresh(log: seq<Event>, d: Id, f: Id, values: seq<Raw>, replace: bool, source: Source, ids: seq<Id>, base: int)
    requires AllStored(values) && |values| < |ids| && FreshIds(log, ids)
    ensures Fresh(log, Batch(d, f, values, replace, source, ids, base))
  {
    var batch := Batch(d, f, values, replace, source, ids, base);
    forall i, j | 0 <= i < j < |batch| ensures batch[i].id != batch[j].id {
      BatchAt(d, f, values, replace, source, ids, base, i);
      BatchAt(d, f, values, replace, source, ids, base, j);
    }
    forall e, g | e in log && g in batch ensures e.id != g.id {
      var i :| 0 <= i < |batch| && batch[i] == g;
      BatchAt(d, f, values, replace, source, ids, base, i);
    }
  }

  lemma BatchExtends(log: seq<Event>, d: Id, f: Id, values: seq<Raw>, replace: bool, source: Source, ids: seq<Id>, base: int)
    requires AllStored(values) && |values| < |ids| && FreshIds(log, ids)
    ensures Extends(log, Batch(d, f, values, replace, source, ids, base), d, f)
  {
    BatchIsFresh(log, d, f, values, replace, source, ids, base);
    forall e | e in Batch(d, f, values, replace, source, ids, base)
      ensures e.document == d && e.definition == f && EventShape(e) && RefersInside(log, e)
    {
      BatchIsShaped(log, d, f, values, replace, source, ids, base, e);
    }
  }

  // ---------------------------------------------------------------- values of single columns

  lemma {:induction false} OneColumn(column: Column, n: nat, order: seq<Column>)
    requires column in order
    ensures FirstValue(map[column := n], order) == Some(n)
  {
    if order[0] != column {
      assert order == [order[0]] + order[1..];
      OneColumn(column, n, order[1..]);
    }
  }

  lemma IsColumn(column: Column)
    ensures column in VALUE_COLUMNS
  {
    match column
    case Text => assert VALUE_COLUMNS[0] == column;
    case Long => assert VALUE_COLUMNS[1] == column;
    case Float => assert VALUE_COLUMNS[2] == column;
    case Boolean => assert VALUE_COLUMNS[3] == column;
    case Date => assert VALUE_COLUMNS[4] == column;
    case DateTime => assert VALUE_COLUMNS[5] == column;
    case Json => assert VALUE_COLUMNS[6] == column;
  }

  lemma AdditionRank(d: Id, f: Id, v: Raw, source: Source, id: Id, base: int, k: nat)
    requires v.stored.Some?
    ensures Rank(AddEvent(d, f, v, source, id, base, k)) == v.stored.value.1 + 1
  {
    IsColumn(v.stored.value.0);
    OneColumn(v.stored.value.0, v.stored.value.1, VALUE_COLUMNS);
  }

  function GivenRanks(values: seq<Raw>): set<nat>
    requires AllStored(values)
  {
    set k | 0 <= k < |values| :: values[k].stored.value.1 + 1
  }

  // ---------------------------------------------------------------- what a multi-valued field shows

  ghost function RanksOf(events: set<Event>): set<nat> {
    set e | e in events :: Rank(e)
  }

  ghost function ShownRanks(r: FieldResolution): set<nat> {
    set k | 0 <= k < |r.values| :: Rank(r.values[k].event)
  }

  // Each value is higher than those before it.
  ghost predicate RanksAscendIn(values: seq<ResolvedValue>) {
    forall i, j :: 0 <= i < j < |values| ==> Rank(values[i].event) < Rank(values[j].event)
  }

  // A field of several values without confirmation shows the values of its candidates, each once.
  lemma MultipleShowsCandidates(events: seq<Event>, definition: Definition)
    requires Distinct(events) && definition.cardinality == Multiple && definition.assertionPolicy == Immediate
    ensures var r, shown := Resolve(events, definition), RanksOf(CandidateSet(Elements(events), Immediate));
      && ShownRanks(r) == shown && |r.values| == |shown| && r.pending == [] && r.conflicting == []
      && r.state == (if shown == {} then Empty else Value)
      && RanksAscendIn(r.values)
  {
    var policy := definition.assertionPolicy;
    var candidates, pending := Candidates(events, policy), PendingEvents(events, policy);
    forall e ensures e in candidates <==> e in CandidateSet(Elements(events), policy) {
      CandidatesAre(events, policy, e);
    }
    forall e ensures e !in pending {
      PendingAre(events, policy, e);
    }
    NoElements(pending);
    ListsDistinct(events, policy);
    assert Elements(candidates) == CandidateSet(Elements(events), policy);
    ValuesAreCounted(candidates);
    NoElements(candidates);
    if candidates != [] {
      OneGroup(candidates);
      assert Rank(candidates[0]) in RanksOf(Elements(candidates));
    }
  }

  function Members(ranks: seq<nat>): set<nat> {
    set x | x in ranks
  }

  lemma MembersOfCons(head: nat, rest: seq<nat>)
    ensures Members([head] + rest) == {head} + Members(rest)
  {
  }

  lemma {:induction false} IncreasingCount(ranks: seq<nat>)
    requires Increasing(ranks)
    ensures |Members(ranks)| == |ranks|
  {
    if ranks != [] {
      var head, rest := ranks[0], ranks[1..];
      assert ranks == [head] + rest;
      HeadFirst(head, rest);
      IncreasingCount(rest);
      MembersOfCons(head, rest);
      assert head !in Members(rest);
    }
  }

  lemma GroupRanks(candidates: seq<Event>)
    ensures var groups, ranks := GroupedValues(candidates), Ranks(candidates);
      |groups| == |ranks| && forall k :: 0 <= k < |groups| ==> Rank(groups[k].event) == ranks[k]
  {
    RankedGroups(candidates);
    forall k | 0 <= k < |GroupedValues(candidates)| ensures Rank(GroupedValues(candidates)[k].event) == Ranks(candidates)[k] {
      GroupOf(candidates, k);
    }
  }

  lemma SameRankSets(values: seq<ResolvedValue>, ranks: seq<nat>)
    requires |values| == |ranks| && forall k :: 0 <= k < |values| ==> Rank(values[k].event) == ranks[k]
    ensures (set k | 0 <= k < |values| :: Rank(values[k].event)) == Members(ranks)
  {
    forall x | x in Members(ranks) ensures x in (set k | 0 <= k < |values| :: Rank(values[k].event)) {
      var k :| 0 <= k < |ranks| && ranks[k] == x;
      assert Rank(values[k].event) == x;
    }
  }

  lemma ValuesAreCounted(candidates: seq<Event>)
    ensures var groups := GroupedValues(candidates);
      && (set k | 0 <= k < |groups| :: Rank(groups[k].event)) == RanksOf(Elements(candidates))
      && |groups| == |RanksOf(Elements(candidates))|
      && RanksAscendIn(groups)
  {
    GroupRanks(candidates);
    SameRankSets(GroupedValues(candidates), Ranks(candidates));
    RanksAscend(candidates);
    IncreasingCount(Ranks(candidates));
    assert Members(Ranks(candidates)) == RanksOf(Elements(candidates));
  }

  // ---------------------------------------------------------------- the batch in the log of its field

  // The field's log before the batch: it lies in the past and refers to itself only.
  ghost predicate Past(log: set<Event>, added: set<Event>, base: int) {
    && (forall e :: e in log ==> e.created < base)
    && (forall e, g :: e in log && g in added ==> !Retracts(e, g.id) && e.id != g.id)
  }

  predicate OfBatch(e: Event, base: int) {
    e.target == None && e.supersedes == None && ((e.op == Clear && e.created == base) || (e.op == Add && e.created > base))
  }

  // The events of a batch, as a set.
  ghost predicate Additive(added: set<Event>, base: int) {
    forall e :: e in added ==> OfBatch(e, base)
  }

  lemma OldRetractions(log: set<Event>, added: set<Event>, base: int, id: Id)
    requires Past(log, added, base) && Additive(added, base)
    ensures Retracted(log + added, id) <==> Retracted(log, id)
    ensures forall e :: e in added ==> !Retracted(log + added, e.id)
  {
  }

  lemma OldAccepted(log: set<Event>, added: set<Event>, base: int, e: Event)
    requires Past(log, added, base) && Additive(added, base)
    ensures Accepted(log + added, Immediate, e) <==> Accepted(log, Immediate, e) || e in added
  {
    OldRetractions(log, added, base, e.id);
  }

  lemma OldOvertaken(log: set<Event>, added: set<Event>, base: int, e: Event)
    requires Past(log, added, base) && Additive(added, base) && e in log + added
    ensures Overtaken(log + added, Immediate, e) <==> e in log && (Overtaken(log, Immediate, e) || (IsValue(e.op) && exists c :: c in added && c.op == Clear))
  {
    forall c ensures Accepted(log + added, Immediate, c) <==> Accepted(log, Immediate, c) || c in added {
      OldAccepted(log, added, base, c);
    }
    if c :| c in added && c.op == Clear {
      if e in log && IsValue(e.op) {
        assert Before(e, c);
      }
    }
    if Overtaken(log, Immediate, e) {
      var c :| Accepted(log, Immediate, c) && c.op == Clear && Before(e, c);
      assert Accepted(log + added, Immediate, c);
    }
  }

  ghost function AddedValues(added: set<Event>): set<Event> {
    set e | e in added && e.op == Add
  }

  // A batch with a CLEAR leaves its own additions as candidates, one without adds them to the old ones.
  lemma BatchCandidates(log: set<Event>, added: set<Event>, base: int)
    requires Past(log, added, base) && Additive(added, base)
    ensures CandidateSet(log + added, Immediate) ==
      AddedValues(added) + if exists c :: c in added && c.op == Clear then {} else CandidateSet(log, Immediate)
  {
    forall e | e in log + added
      ensures IsCandidate(log + added, Immediate, e) <==> e in AddedValues(added) || (!(exists c :: c in added && c.op == Clear) && IsCandidate(log, Immediate, e))
    {
      OldAccepted(log, added, base, e);
      OldOvertaken(log, added, base, e);
    }
  }

  lemma AdditionRanks(d: Id, f: Id, values: seq<Raw>, source: Source, ids: seq<Id>, base: int)
    requires AllStored(values) && |values| < |ids|
    ensures var additions := Additions(d, f, values, source, ids, base);
      RanksOf(Elements(additions)) == GivenRanks(values) && forall e :: e in additions ==> OfBatch(e, base) && e.op == Add
  {
    var additions := Additions(d, f, values, source, ids, base);
    forall k | 0 <= k < |values| ensures Rank(additions[k]) == values[k].stored.value.1 + 1 {
      AdditionRank(d, f, values[k], source, ids[k + 1], base, k);
    }
    forall rank | rank in GivenRanks(values) ensures rank in RanksOf(Elements(additions)) {
      var k :| 0 <= k < |values| && values[k].stored.value.1 + 1 == rank;
      assert additions[k] in Elements(additions);
    }
    forall rank | rank in RanksOf(Elements(additions)) ensures rank in GivenRanks(values) {
      var e :| e in Elements(additions) && Rank(e) == rank;
      var k :| 0 <= k < |additions| && additions[k] == e;
    }
  }

  lemma ClearAndAdditions(clears: seq<Event>, additions: seq<Event>)
    requires (forall e :: e in clears ==> e.op == Clear) && forall e :: e in additions ==> e.op == Add
    ensures AddedValues(Elements(clears + additions)) == Elements(additions)
    ensures clears != [] <==> exists c :: c in Elements(clears + additions) && c.op == Clear
  {
    if clears != [] {
      assert clears[0] in clears + additions;
    }
  }

  lemma BatchIsAdditive(d: Id, f: Id, values: seq<Raw>, replace: bool, source: Source, ids: seq<Id>, base: int)
    requires AllStored(values) && |values| < |ids|
    ensures var batch := Elements(Batch(d, f, values, replace, source, ids, base));
      && Additive(batch, base) && RanksOf(AddedValues(batch)) == GivenRanks(values)
      && (replace <==> exists c :: c in batch && c.op == Clear)
  {
    AdditionRanks(d, f, values, source, ids, base);
    ClearAndAdditions(if replace then [ClearEvent(d, f, source, ids[0], base)] else [], Additions(d, f, values, source, ids, base));
  }

  lemma PastOfField(log: seq<Event>, added: seq<Event>, d: Id, f: Id, base: int)
    requires Distinct(log) && Extends(log, added, d, f) && RefersToItself(log)
    requires forall e :: e in InField(log, d, f) ==> e.created < base
    ensures Past(InField(log, d, f), Elements(added), base)
    ensures InField(log + added, d, f) == InField(log, d, f) + Elements(added)
  {
    forall e, g | e in InField(log, d, f) && g in Elements(added) ensures !Retracts(e, g.id) && e.id != g.id {
      assert RefersInside(log, e);
    }
  }

  // A replacement makes the field show exactly the given values; without one it shows the old values and the
  // given ones.  Each value is shown once, and nothing is pending or conflicting.
  lemma AppliedValuesAreShown(log: seq<Event>, d: Id, f: Id, values: seq<Raw>, replace: bool, source: Source, ids: seq<Id>, base: int, definition: Definition)
    requires AllStored(values) && |values| < |ids| && FreshIds(log, ids)
    requires Distinct(log) && RefersToItself(log)
    requires definition.cardinality == Multiple && definition.assertionPolicy == Immediate
    requires forall e :: e in InField(log, d, f) ==> e.created < base
    ensures var before := Resolve(FieldLog(log, d, f), definition);
      var after := Resolve(FieldLog(log + Batch(d, f, values, replace, source, ids, base), d, f), definition);
      && ShownRanks(after) == GivenRanks(values) + (if replace then {} else ShownRanks(before))
      && |after.values| == |ShownRanks(after)| && after.pending == [] && after.conflicting == []
      && after.state == (if ShownRanks(after) == {} then Empty else Value)
      && RanksAscendIn(after.values)
  {
    var batch := Batch(d, f, values, replace, source, ids, base);
    BatchExtends(log, d, f, values, replace, source, ids, base);
    AppendedDistinct(log, batch);
    FieldLogIs(log, d, f);
    FieldLogIs(log + batch, d, f);
    PastOfField(log, batch, d, f, base);
    BatchIsAdditive(d, f, values, replace, source, ids, base);
    var past := InField(log, d, f);
    BatchCandidates(past, Elements(batch), base);
    MultipleShowsCandidates(FieldLog(log, d, f), definition);
    MultipleShowsCandidates(FieldLog(log + batch, d, f), definition);
    RanksOfUnion(AddedValues(Elements(batch)), if replace then {} else CandidateSet(past, Immediate));
  }

  lemma RanksOfUnion(a: set<Event>, b: set<Event>)
    ensures RanksOf(a + b) == RanksOf(a) + RanksOf(b)
    ensures RanksOf({}) == {}
  {
  }
}
