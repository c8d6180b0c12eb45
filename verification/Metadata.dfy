/**
  The metadata event log of app/document_metadata.py and the current value it resolves to.

  The canonical JSON text of a value is modelled by its rank among all such texts, which keeps equality and
  order.  Event ids are ranked in the same way, so that (created, id) orders events as `_event_order` does.
 */
module Metadata {
  import opened Common

  type Id = nat

  datatype Column = Text | Long | Float | Boolean | Date | DateTime | Json
  datatype Operation = Set | Add | Remove | Clear | Confirm | Reject
  datatype Source = Human | Agent | Extractor | Import | Rule | System
  datatype AssertionPolicy = Immediate | RequiresConfirmation
  datatype ResolutionPolicy = ExplicitOnly | LatestValid | HumanPrecedence
  datatype Cardinality = Single | Multiple

  const VALUE_COLUMNS: seq<Column> := [Text, Long, Float, Boolean, Date, DateTime, Json]

  datatype Event = Event(
    id: Id,
    document: Id,
    definition: Id,
    op: Operation,
    columns: map<Column, nat>,
    source: Source,
    target: Option<Id>,
    supersedes: Option<Id>,
    created: int)

  datatype Definition = Definition(
    matter: Id,
    key: string,
    cardinality: Cardinality,
    assertionPolicy: AssertionPolicy,
    resolutionPolicy: ResolutionPolicy,
    asserted: bool,
    active: bool)

  predicate IsAssertion(op: Operation) {
    op == Set || op == Add || op == Clear
  }

  predicate IsValue(op: Operation) {
    op == Set || op == Add
  }

  // event_value: the first column that is not NULL
  function FirstValue(columns: map<Column, nat>, order: seq<Column>): Option<nat> {
    if order == [] then None
    else if order[0] in columns then Some(columns[order[0]])
    else FirstValue(columns, order[1..])
  }

  function EventValue(columns: map<Column, nat>): Option<nat> {
    FirstValue(columns, VALUE_COLUMNS)
  }

  // The rank of a value's canonical text; an event without a value ranks lowest.
  function Rank(e: Event): nat {
    match EventValue(e.columns)
    case None => 0
    case Some(v) => v + 1
  }

  // _event_order
  predicate Before(e: Event, f: Event) {
    e.created < f.created || (e.created == f.created && e.id < f.id)
  }

  // ---------------------------------------------------------------- lists of events

  function Elements(events: seq<Event>): set<Event> {
    set e | e in events
  }

  predicate Distinct(events: seq<Event>) {
    forall i, j :: 0 <= i < j < |events| ==> events[i].id != events[j].id
  }

  // The events of the list that are among the chosen ones, in the order of the list.
  function Among(events: seq<Event>, chosen: set<Event>): (r: seq<Event>)
    ensures forall e :: e in r <==> e in events && e in chosen
  {
    if events == [] then []
    else
      var e := events[|events| - 1];
      Among(events[..|events| - 1], chosen) + if e in chosen then [e] else []
  }

  // The places of the chosen events.
  ghost predicate ArePlaces(events: seq<Event>, chosen: set<Event>, places: seq<nat>) {
    && Increasing(places) && (forall k :: 0 <= k < |places| ==> places[k] < |events|)
    && forall i :: 0 <= i < |events| ==> (events[i] in chosen <==> i in places)
  }

  ghost predicate AreEvents(events: seq<Event>, places: seq<nat>, list: seq<Event>) {
    |list| == |places| && forall k :: 0 <= k < |places| ==> places[k] < |events| && list[k] == events[places[k]]
  }

  lemma PlaceAdded(events: seq<Event>, e: Event, chosen: set<Event>, places: seq<nat>)
    requires ArePlaces(events, chosen, places)
    ensures ArePlaces(events + [e], chosen, places + if e in chosen then [|events|] else [])
  {
    var after := places + if e in chosen then [|events|] else [];
    assert |events| !in places;
    forall i | 0 <= i < |events + [e]| ensures (events + [e])[i] in chosen <==> i in after {
    }
  }

  // The list holds the events at the places of the chosen ones, in their order.
  lemma {:induction false} AmongInOrder(events: seq<Event>, chosen: set<Event>) returns (places: seq<nat>)
    ensures ArePlaces(events, chosen, places) && AreEvents(events, places, Among(events, chosen))
  {
    places := [];
    if events != [] {
      var front, e := events[..|events| - 1], events[|events| - 1];
      assert events == front + [e];
      places := AmongInOrder(front, chosen);
      PlaceAdded(front, e, chosen, places);
      places := places + if e in chosen then [|front|] else [];
    }
  }

  lemma {:induction false} AmongDistinct(events: seq<Event>, chosen: set<Event>)
    requires Distinct(events)
    ensures Distinct(Among(events, chosen))
  {
    if events != [] {
      var front, e := events[..|events| - 1], events[|events| - 1];
      AmongDistinct(front, chosen);
      forall f | f in Among(front, chosen) ensures f.id != e.id {
        var k :| 0 <= k < |front| && front[k] == f;
      }
    }
  }

  // max(events, key=_event_order)
  function Latest(events: seq<Event>): (r: Event)
    requires events != []
    ensures r in events && forall e :: e in events ==> !Before(r, e)
  {
    var front, last := events[..|events| - 1], events[|events| - 1];
    assert events == front + [last];
    if front == [] then last
    else
      var r := Latest(front);
      if Before(r, last) then last else r
  }

  lemma SameId(events: seq<Event>, e: Event, f: Event)
    requires Distinct(events) && e in events && f in events && e.id == f.id
    ensures e == f
  {
    var i :| 0 <= i < |events| && events[i] == e;
    var k :| 0 <= k < |events| && events[k] == f;
    assert i == k;
  }

  lemma LatestUnique(a: seq<Event>, b: seq<Event>)
    requires a != [] && b != [] && Distinct(a) && Elements(a) == Elements(b)
    ensures Latest(a) == Latest(b)
  {
    var x, y := Latest(a), Latest(b);
    assert x in Elements(a) && y in Elements(b);
    SameId(a, x, y);
  }

  // sorted(events, key=_event_order)
  function Inserted(events: seq<Event>, e: Event): (r: seq<Event>)
    ensures forall f :: f in r <==> f in events || f == e
  {
    if events == [] || !Before(e, events[|events| - 1]) then events + [e]
    else
      var front, last := events[..|events| - 1], events[|events| - 1];
      assert events == front + [last];
      Inserted(front, e) + [last]
  }

  function Sorted(events: seq<Event>): (r: seq<Event>)
    ensures forall e :: e in r <==> e in events
  {
    if events == [] then []
    else
      var front, last := events[..|events| - 1], events[|events| - 1];
      assert events == front + [last];
      Inserted(Sorted(front), last)
  }

  predicate Ascending(events: seq<Event>) {
    forall i, j :: 0 <= i < j < |events| ==> Before(events[i], events[j])
  }

  lemma {:induction false} InsertedAscends(events: seq<Event>, e: Event)
    requires Ascending(events) && forall f :: f in events ==> f.id != e.id
    ensures Ascending(Inserted(events, e))
  {
    if events != [] && Before(e, events[|events| - 1]) {
      var front, last := events[..|events| - 1], events[|events| - 1];
      InsertedAscends(front, e);
      forall f | f in Inserted(front, e) ensures Before(f, last) {
        assert f in front || f == e;
      }
    }
  }

  lemma {:induction false} SortedAscends(events: seq<Event>)
    requires Distinct(events)
    ensures Ascending(Sorted(events))
  {
    if events != [] {
      var front, last := events[..|events| - 1], events[|events| - 1];
      SortedAscends(front);
      forall f | f in Sorted(front) ensures f.id != last.id {
        var k :| 0 <= k < |front| && front[k] == f;
      }
      InsertedAscends(Sorted(front), last);
    }
  }

  lemma NoElements(events: seq<Event>)
    ensures Elements(events) == {} <==> events == []
  {
    if events != [] {
      assert events[0] in Elements(events);
    }
  }

  // The last of an ascending list comes after all others.
  lemma AscendingLast(events: seq<Event>)
    requires Ascending(events) && events != []
    ensures var front, last := events[..|events| - 1], events[|events| - 1];
      && Ascending(front) && Elements(front) == Elements(events) - {last}
      && forall e :: e in Elements(events) ==> e == last || Before(e, last)
  {
    var front, last := events[..|events| - 1], events[|events| - 1];
    assert events == front + [last];
  }

  lemma {:induction false} AscendingUnique(a: seq<Event>, b: seq<Event>)
    requires Ascending(a) && Ascending(b) && Elements(a) == Elements(b)
    ensures a == b
  {
    NoElements(a);
    NoElements(b);
    if a != [] {
      AscendingLast(a);
      AscendingLast(b);
      var x, y := a[|a| - 1], b[|b| - 1];
      assert x in Elements(a) && y in Elements(b);
      assert x == y;
      var a', b' := a[..|a| - 1], b[..|b| - 1];
      assert Elements(a') == Elements(a) - {x} == Elements(b');
      assert Ascending(a') && Ascending(b');
      AscendingUnique(a', b');
      assert a == a' + [x] && b == b' + [y];
    }
  }

  lemma SortedUnique(a: seq<Event>, b: seq<Event>)
    requires Distinct(a) && Distinct(b) && Elements(a) == Elements(b)
    ensures Sorted(a) == Sorted(b)
  {
    SortedAscends(a);
    SortedAscends(b);
    assert Elements(Sorted(a)) == Elements(a) && Elements(Sorted(b)) == Elements(b);
    AscendingUnique(Sorted(a), Sorted(b));
  }

  // ---------------------------------------------------------------- derive_event_states

  datatype EventStates = EventStates(rejected: set<Id>, confirmed: set<Id>, superseded: set<Id>, invalidated: set<Id>)

  function Targets(events: seq<Event>, op: Operation): set<Id> {
    set e | e in events && e.op == op && e.target.Some? :: e.target.value
  }

  function Superseded(events: seq<Event>): set<Id> {
    set e | e in events && e.supersedes.Some? :: e.supersedes.value
  }

  function Assertions(events: seq<Event>, dead: set<Id>): seq<Event> {
    Among(events, set e | e in events && IsAssertion(e.op) && e.id !in dead)
  }

  function Eligible(active: seq<Event>, policy: AssertionPolicy, confirmed: set<Id>): seq<Event> {
    if policy == Immediate then active else Among(active, set e | e in active && e.id in confirmed)
  }

  function Clears(events: seq<Event>): seq<Event> {
    Among(events, set e | e in events && e.op == Clear)
  }

  // The ids of the values before the latest of the clears.
  function Hidden(events: seq<Event>, clears: seq<Event>): set<Id> {
    if clears == [] then {} else set e | e in events && IsValue(e.op) && Before(e, Latest(clears)) :: e.id
  }

  function DeriveEventStates(events: seq<Event>, policy: AssertionPolicy): EventStates {
    var rejected := Targets(events, Reject);
    var confirmed := Targets(events, Confirm) - rejected;
    var superseded := Superseded(events);
    var removed := Targets(events, Remove);
    var clears := Clears(Eligible(Assertions(events, rejected + superseded + removed), policy, confirmed));
    EventStates(rejected, confirmed, superseded, removed + Hidden(events, clears))
  }

  // ---------------------------------------------------------------- resolve_field

  datatype ResolutionState = Value | Empty | Pending | Conflicted

  datatype ResolvedValue = ResolvedValue(event: Event, supporting: seq<Id>)

  datatype FieldResolution = FieldResolution(
    state: ResolutionState,
    values: seq<ResolvedValue>,
    pending: seq<Event>,
    conflicting: seq<Id>)

  function Ids(events: seq<Event>): seq<Id> {
    seq(|events|, i requires 0 <= i < |events| => events[i].id)
  }

  function WithRank(events: seq<Event>, rank: nat): seq<Event> {
    Among(events, set e | e in events && Rank(e) == rank)
  }

  function InsertRank(ranks: seq<nat>, rank: nat): (r: seq<nat>)
    ensures forall x :: x in r <==> x in ranks || x == rank
  {
    if ranks == [] then [rank]
    else
      var head, rest := ranks[0], ranks[1..];
      assert ranks == [head] + rest;
      if rank == head then ranks
      else if rank < head then [rank] + ranks
      else [head] + InsertRank(rest, rank)
  }

  // The values of the events in ascending order, each once.
  function Ranks(events: seq<Event>): seq<nat> {
    if events == [] then [] else InsertRank(Ranks(events[..|events| - 1]), Rank(events[|events| - 1]))
  }

  function Supported(group: seq<Event>): ResolvedValue
    requires group != []
  {
    ResolvedValue(Latest(group), Ids(Sorted(group)))
  }

  function ValuesFor(events: seq<Event>, ranks: seq<nat>): seq<ResolvedValue>
    requires forall k :: 0 <= k < |ranks| ==> WithRank(events, ranks[k]) != []
  {
    seq(|ranks|, k requires 0 <= k < |ranks| => Supported(WithRank(events, ranks[k])))
  }

  predicate Increasing(ranks: seq<nat>) {
    forall i, j :: 0 <= i < j < |ranks| ==> ranks[i] < ranks[j]
  }

  lemma HeadFirst(head: nat, rest: seq<nat>)
    ensures Increasing([head] + rest) <==> Increasing(rest) && forall x :: x in rest ==> head < x
  {
    var all := [head] + rest;
    if Increasing(all) {
      forall i, j | 0 <= i < j < |rest| ensures rest[i] < rest[j] {
        assert rest[i] == all[i + 1] && rest[j] == all[j + 1];
      }
      forall x | x in rest ensures head < x {
        var i :| 0 <= i < |rest| && rest[i] == x;
        assert all[0] < all[i + 1];
      }
    }
    if Increasing(rest) && forall x :: x in rest ==> head < x {
      forall i, j | 0 <= i < j < |all| ensures all[i] < all[j] {
        assert all[j] == rest[j - 1] && rest[j - 1] in rest;
        assert i > 0 ==> all[i] == rest[i - 1];
      }
    }
  }

  lemma {:induction false} InsertRankKeeps(ranks: seq<nat>, rank: nat)
    requires Increasing(ranks)
    ensures Increasing(InsertRank(ranks, rank))
  {
    if ranks != [] {
      var head, rest := ranks[0], ranks[1..];
      assert ranks == [head] + rest;
      HeadFirst(head, rest);
      HeadFirst(rank, ranks);
      InsertRankKeeps(rest, rank);
      HeadFirst(head, InsertRank(rest, rank));
    }
  }

  lemma {:induction false} RanksAscend(events: seq<Event>)
    ensures Increasing(Ranks(events))
    ensures forall x :: x in Ranks(events) <==> exists e :: e in events && Rank(e) == x
  {
    if events != [] {
      var front, last := events[..|events| - 1], events[|events| - 1];
      assert events == front + [last];
      RanksAscend(front);
      InsertRankKeeps(Ranks(front), Rank(last));
      forall x ensures x in Ranks(events) <==> exists e :: e in events && Rank(e) == x {
        if x in Ranks(front) {
          var e :| e in front && Rank(e) == x;
          assert e in events;
        }
        if x == Rank(last) {
          assert last in events;
        }
        if e :| e in events && Rank(e) == x {
          assert e in front || e == last;
        }
      }
    }
  }

  lemma RankedGroups(events: seq<Event>)
    ensures forall k :: 0 <= k < |Ranks(events)| ==> WithRank(events, Ranks(events)[k]) != []
  {
    forall k | 0 <= k < |Ranks(events)| ensures WithRank(events, Ranks(events)[k]) != [] {
      RanksAscend(events);
      assert Ranks(events)[k] in Ranks(events);
      var e :| e in events && Rank(e) == Ranks(events)[k];
      assert e in WithRank(events, Rank(e));
    }
  }

  // The events grouped by value, in the order of the values.
  function GroupedValues(events: seq<Event>): seq<ResolvedValue> {
    RankedGroups(events);
    ValuesFor(events, Ranks(events))
  }

  function Alone(e: Event): ResolvedValue {
    ResolvedValue(e, [e.id])
  }

  function EachAlone(events: seq<Event>): seq<ResolvedValue> {
    seq(|events|, i requires 0 <= i < |events| => Alone(events[i]))
  }

  // The active assertions and the pending and candidate events among them.
  function ActiveEvents(events: seq<Event>, states: EventStates): seq<Event> {
    Assertions(events, states.rejected + states.superseded + states.invalidated)
  }

  function PendingEvents(events: seq<Event>, policy: AssertionPolicy): seq<Event> {
    var states := DeriveEventStates(events, policy);
    var active := ActiveEvents(events, states);
    Among(active, set e | e in active && policy == RequiresConfirmation && e.id !in states.confirmed)
  }

  // The values among the eligible events, not yet filtered by the latest clear.
  function EligibleEvents(events: seq<Event>, policy: AssertionPolicy): seq<Event> {
    var states := DeriveEventStates(events, policy);
    Eligible(ActiveEvents(events, states), policy, states.confirmed)
  }

  function Candidates(events: seq<Event>, policy: AssertionPolicy): seq<Event> {
    var eligible := EligibleEvents(events, policy);
    var clears := Clears(eligible);
    Among(eligible, set e | e in eligible && IsValue(e.op) && (clears == [] || Before(Latest(clears), e)))
  }

  function ByHuman(events: seq<Event>): seq<Event> {
    Among(events, set e | e in events && e.source == Human)
  }

  // The human candidates, or all of them when there is none.
  function Preferred(candidates: seq<Event>): (r: seq<Event>)
    ensures candidates != [] ==> r != []
  {
    if ByHuman(candidates) == [] then candidates else ByHuman(candidates)
  }

  // The choice between the candidates: `groups` are their values, `latest` the last of them and `preferred`
  // the last of the preferred ones.
  function Choice(groups: seq<ResolvedValue>, latest: Event, preferred: Event, ids: seq<Id>, pending: seq<Event>,
                  definition: Definition): FieldResolution {
    if definition.cardinality == Multiple then FieldResolution(Value, groups, pending, [])
    else if definition.resolutionPolicy == LatestValid then FieldResolution(Value, [Alone(latest)], pending, [])
    else if definition.resolutionPolicy == HumanPrecedence then FieldResolution(Value, [Alone(preferred)], pending, [])
    else if |groups| == 1 then FieldResolution(Value, groups, pending, [])
    else FieldResolution(Conflicted, groups, pending, ids)
  }

  // resolve_field, from its lists of candidate and pending events
  function Resolution(candidates: seq<Event>, pending: seq<Event>, definition: Definition): FieldResolution {
    if candidates == [] then FieldResolution(if pending == [] then Empty else Pending, EachAlone(pending), pending, [])
    else Choice(GroupedValues(candidates), Latest(candidates), Latest(Preferred(candidates)), Ids(Sorted(candidates)), pending, definition)
  }

  function Resolve(events: seq<Event>, definition: Definition): FieldResolution {
    Resolution(Candidates(events, definition.assertionPolicy), PendingEvents(events, definition.assertionPolicy), definition)
  }
}
