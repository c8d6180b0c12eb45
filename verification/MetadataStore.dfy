/**
  The metadata tables as one object: the event log and the rows projected from it, changed by
  `add_metadata_event` and `apply_metadata_values`.  The definitions, with their policies, stay as they are.
 */
module MetadataStore {
  import opened Common
  import opened Metadata
  import opened MetadataResolution
  import opened MetadataLaws

  // A value as given by a caller, and the column it is stored in; None when `value_columns` refuses it.
  datatype Raw = Raw(given: string, stored: Option<(Column, nat)>)

  datatype Error =
    | DocumentNotFound | DefinitionNotFound | ReadOnly | Inactive | WrongOperation | ForeignTarget | WrongTarget
    | WrongSuperseded | InvalidValue | TargetShape | NotMultiple

  datatype Key = Key(document: Id, definition: Id, ordinal: nat)

  datatype Row = Row(
    state: ResolutionState,
    columns: map<Column, nat>,
    source: Option<Id>,
    supporting: seq<Id>,
    pending: seq<Id>,
    conflicting: seq<Id>)

  // ---------------------------------------------------------------- resolve_field with its loops

  lemma WithRankSnoc(events: seq<Event>, e: Event, rank: nat)
    ensures WithRank(events + [e], rank) == WithRank(events, rank) + if Rank(e) == rank then [e] else []
  {
    var all := set f | f in events + [e] && Rank(f) == rank;
    AmongSnoc(events, e, all);
    AmongSame(events, all, set f | f in events && Rank(f) == rank);
    assert e in all <==> Rank(e) == rank;
  }

  // for event in candidates: grouped.setdefault(_canonical(event_value(event)), []).append(event)
  method GroupByValue(candidates: seq<Event>) returns (grouped: map<nat, seq<Event>>)
    ensures forall rank :: rank in grouped <==> WithRank(candidates, rank) != []
    ensures forall rank :: rank in grouped ==> grouped[rank] == WithRank(candidates, rank)
  {
    grouped := map[];
    for i := 0 to |candidates|
      invariant forall rank :: rank in grouped <==> WithRank(candidates[..i], rank) != []
      invariant forall rank :: rank in grouped ==> grouped[rank] == WithRank(candidates[..i], rank)
    {
      var e := candidates[i];
      assert candidates[..i + 1] == candidates[..i] + [e];
      forall rank ensures WithRank(candidates[..i + 1], rank) == WithRank(candidates[..i], rank) + if Rank(e) == rank then [e] else [] {
        WithRankSnoc(candidates[..i], e, rank);
      }
      grouped := grouped[Rank(e) := (if Rank(e) in grouped then grouped[Rank(e)] else []) + [e]];
    }
    assert candidates[..|candidates|] == candidates;
  }

  method SortRanks(keys: set<nat>) returns (ranks: seq<nat>)
    ensures Increasing(ranks) && forall x :: x in ranks <==> x in keys
  {
    ranks := [];
    var todo := keys;
    while todo != {}
      invariant todo <= keys && Increasing(ranks) && forall x :: x in ranks <==> x in keys && x !in todo
      decreases todo
    {
      var x :| x in todo;
      InsertRankKeeps(ranks, x);
      ranks := InsertRank(ranks, x);
      todo := todo - {x};
    }
  }

  lemma RankedExactly(candidates: seq<Event>, rank: nat)
    ensures rank in Ranks(candidates) <==> WithRank(candidates, rank) != []
  {
    RanksAscend(candidates);
    if e :| e in candidates && Rank(e) == rank {
      assert e in WithRank(candidates, rank);
    }
    if WithRank(candidates, rank) != [] {
      var e := WithRank(candidates, rank)[0];
      assert e in WithRank(candidates, rank);
    }
  }

  method ResolveGroups(grouped: map<nat, seq<Event>>, ranks: seq<nat>) returns (values: seq<ResolvedValue>)
    requires forall k :: 0 <= k < |ranks| ==> ranks[k] in grouped && grouped[ranks[k]] != []
    ensures |values| == |ranks| && forall k :: 0 <= k < |ranks| ==> values[k] == Supported(grouped[ranks[k]])
  {
    values := [];
    for k := 0 to |ranks|
      invariant |values| == k && forall i :: 0 <= i < k ==> values[i] == Supported(grouped[ranks[i]])
    {
      var supporting := grouped[ranks[k]];
      values := values + [ResolvedValue(Latest(supporting), Ids(Sorted(supporting)))];
    }
  }

  lemma SameKeys(candidates: seq<Event>, ranks: seq<nat>)
    requires Increasing(ranks) && forall rank :: rank in ranks <==> WithRank(candidates, rank) != []
    ensures ranks == Ranks(candidates)
  {
    RanksAscend(candidates);
    forall rank ensures rank in ranks <==> rank in Ranks(candidates) {
      RankedExactly(candidates, rank);
    }
    IncreasingUnique(ranks, Ranks(candidates));
  }

  method GroupValues(candidates: seq<Event>) returns (values: seq<ResolvedValue>)
    ensures values == GroupedValues(candidates)
  {
    var grouped := GroupByValue(candidates);
    var ranks := SortRanks(grouped.Keys);
    SameKeys(candidates, ranks);
    RankedGroups(candidates);
    values := ResolveGroups(grouped, ranks);
  }

  lemma {:induction false} InsertedSize(events: seq<Event>, e: Event)
    ensures |Inserted(events, e)| == |events| + 1
  {
    if events != [] && Before(e, events[|events| - 1]) {
      InsertedSize(events[..|events| - 1], e);
    }
  }

  lemma {:induction false} SortedSize(events: seq<Event>)
    ensures |Sorted(events)| == |events|
  {
    if events != [] {
      SortedSize(events[..|events| - 1]);
      InsertedSize(Sorted(events[..|events| - 1]), events[|events| - 1]);
    }
  }

  lemma SortedIds(events: seq<Event>)
    ensures |Ids(Sorted(events))| == |events| && forall id :: id in Ids(Sorted(events)) <==> HasId(events, id)
  {
    SortedSize(events);
    forall id ensures id in Ids(Sorted(events)) <==> HasId(events, id) {
      IdsAre(Sorted(events), id);
    }
  }

  lemma ChosenConflict(groups: seq<ResolvedValue>, latest: Event, preferred: Event, ids: seq<Id>, pending: seq<Event>, definition: Definition)
    ensures var r := Choice(groups, latest, preferred, ids, pending, definition); r.state == Conflicted ==> r.conflicting == ids
  {
  }

  lemma ConflictingIds(candidates: seq<Event>, pending: seq<Event>, definition: Definition)
    ensures var r := Resolution(candidates, pending, definition); r.state == Conflicted ==> r.conflicting == Ids(Sorted(candidates))
  {
    if candidates != [] {
      ChosenConflict(GroupedValues(candidates), Latest(candidates), Latest(Preferred(candidates)), Ids(Sorted(candidates)), pending, definition);
    }
  }

  lemma SortedCandidates(events: seq<Event>, policy: AssertionPolicy)
    requires Distinct(events)
    ensures Ascending(Sorted(Candidates(events, policy)))
  {
    ListsDistinct(events, policy);
    SortedAscends(Candidates(events, policy));
  }

  // The events with the ids, in the order of the list.
  predicate AreNamed(ids: seq<Id>, named: seq<Event>) {
    |ids| == |named| && forall k :: 0 <= k < |ids| ==> ids[k] == named[k].id
  }

  lemma SortedNames(candidates: seq<Event>, ids: seq<Id>)
    requires ids == Ids(Sorted(candidates))
    ensures AreNamed(ids, Sorted(candidates)) && forall e :: e in Sorted(candidates) <==> e in candidates
  {
  }

  // The conflicting ids are in the order of the events.
  lemma ConflictsInOrder(events: seq<Event>, definition: Definition) returns (named: seq<Event>)
    requires Distinct(events) && Resolve(events, definition).state == Conflicted
    ensures AreNamed(Resolve(events, definition).conflicting, named) && Ascending(named)
    ensures forall e :: e in named <==> e in Candidates(events, definition.assertionPolicy)
  {
    var policy := definition.assertionPolicy;
    ConflictingIds(Candidates(events, policy), PendingEvents(events, policy), definition);
    SortedCandidates(events, policy);
    SortedNames(Candidates(events, policy), Resolve(events, definition).conflicting);
    named := Sorted(Candidates(events, policy));
  }

  // A CONFLICTED field, and no other, names the candidates that conflict: all of them, and nothing else.
  ghost predicate NamesConflicts(r: FieldResolution, candidates: seq<Event>) {
    && (r.state != Conflicted ==> r.conflicting == [])
    && (r.state == Conflicted ==> |r.conflicting| == |candidates| && forall id :: id in r.conflicting <==> HasId(candidates, id))
  }

  // Each of the events is a value of its own, in their order, and supports itself.
  predicate ShowsEachAlone(values: seq<ResolvedValue>, events: seq<Event>) {
    && |values| == |events|
    && forall k :: 0 <= k < |values| ==> values[k].event == events[k] && values[k].supporting == [events[k].id]
  }

  method ResolveField(events: seq<Event>, definition: Definition) returns (r: FieldResolution)
    ensures r == Resolve(events, definition)
    ensures NamesConflicts(r, Candidates(events, definition.assertionPolicy))
    ensures r.state == Pending ==> ShowsEachAlone(r.values, r.pending)
  {
    var candidates := Candidates(events, definition.assertionPolicy);
    var pending := PendingEvents(events, definition.assertionPolicy);
    if candidates == [] {
      return FieldResolution(if pending == [] then Empty else Pending, EachAlone(pending), pending, []);
    }
    if definition.cardinality == Multiple {
      var values := GroupValues(candidates);
      return FieldResolution(Value, values, pending, []);
    }
    if definition.resolutionPolicy == LatestValid {
      return FieldResolution(Value, [Alone(Latest(candidates))], pending, []);
    }
    if definition.resolutionPolicy == HumanPrecedence {
      return FieldResolution(Value, [Alone(Latest(Preferred(candidates)))], pending, []);
    }
    var values := GroupValues(candidates);
    if |values| == 1 {
      return FieldResolution(Value, values, pending, []);
    }
    SortedIds(candidates);
    return FieldResolution(Conflicted, values, pending, Ids(Sorted(candidates)));
  }

  // ---------------------------------------------------------------- the projection

  function InField(log: seq<Event>, d: Id, f: Id): set<Event> {
    set e | e in log && e.document == d && e.definition == f
  }

  // SELECT ... WHERE matter_document_id = d AND metadata_definition_id = f ORDER BY created_at, id
  function FieldLog(log: seq<Event>, d: Id, f: Id): seq<Event> {
    Sorted(Among(log, InField(log, d, f)))
  }

  function RowFor(r: FieldResolution, v: ResolvedValue): Row {
    Row(r.state, v.event.columns, Some(v.event.id), v.supporting, Ids(r.pending), r.conflicting)
  }

  function RowsFor(r: FieldResolution): seq<Row> {
    if r.values == [] then [Row(r.state, map[], None, [], Ids(r.pending), r.conflicting)]
    else seq(|r.values|, k requires 0 <= k < |r.values| => RowFor(r, r.values[k]))
  }

  // The rows that the log calls for: those of its resolution, once the field has an event.
  function FieldRows(log: seq<Event>, definitions: map<Id, Definition>, d: Id, f: Id): seq<Row> {
    if f !in definitions || FieldLog(log, d, f) == [] then [] else RowsFor(Resolve(FieldLog(log, d, f), definitions[f]))
  }

  predicate IsProjected(log: seq<Event>, rows: map<Key, Row>, definitions: map<Id, Definition>, k: Key) {
    var expected := FieldRows(log, definitions, k.document, k.definition);
    && (k in rows <==> k.ordinal < |expected|)
    && (k in rows ==> rows[k] == expected[k.ordinal])
  }

  ghost predicate Projected(log: seq<Event>, rows: map<Key, Row>, definitions: map<Id, Definition>) {
    forall k :: IsProjected(log, rows, definitions, k)
  }

  // The CHECK constraints of metadata_event.
  predicate EventShape(e: Event) {
    && (if IsValue(e.op) then |e.columns| == 1 else e.columns == map[])
    && (e.target.Some? <==> !IsAssertion(e.op))
  }

  // An event refers to events of its own field only.
  ghost predicate RefersInside(log: seq<Event>, e: Event) {
    && (e.target.Some? ==> exists t :: t in log && t.id == e.target.value && t.document == e.document && t.definition == e.definition)
    && (e.supersedes.Some? ==> exists t :: t in log && t.id == e.supersedes.value && t.document == e.document && t.definition == e.definition)
  }

  ghost predicate RefersToItself(log: seq<Event>) {
    forall e {:trigger RefersInside(log, e)} :: e in log ==> RefersInside(log, e)
  }

  ghost predicate LogOk(log: seq<Event>, documents: set<Id>, definitions: set<Id>) {
    && Distinct(log)
    && (forall e :: e in log ==> EventShape(e) && e.document in documents && e.definition in definitions)
    && RefersToItself(log)
  }

  // The CHECK constraint ck_document_metadata_current_value_shape.
  ghost predicate RowShape(row: Row) {
    match row.state
    case Empty => row.source == None && row.columns == map[]
    case Pending => row.source.Some?
    case Value => row.source.Some? && |row.columns| == 1
    case Conflicted => row.source.Some? && |row.columns| == 1
  }

  lemma FieldLogIs(log: seq<Event>, d: Id, f: Id)
    requires Distinct(log)
    ensures Distinct(FieldLog(log, d, f)) && Elements(FieldLog(log, d, f)) == InField(log, d, f)
  {
    AmongDistinct(log, InField(log, d, f));
    SortedAscends(Among(log, InField(log, d, f)));
    AscendingDistinct(FieldLog(log, d, f));
  }

  lemma AscendingDistinct(events: seq<Event>)
    requires Ascending(events) && forall e, f :: e in events && f in events && e.id == f.id ==> e == f
    ensures Distinct(events)
  {
    forall i, j | 0 <= i < j < |events| ensures events[i].id != events[j].id {
      assert Before(events[i], events[j]);
    }
  }

  // ---------------------------------------------------------------- what the rows look like

  lemma ChoiceShows(groups: seq<ResolvedValue>, latest: Event, preferred: Event, ids: seq<Id>, pending: seq<Event>, definition: Definition)
    requires groups != []
    ensures var r := Choice(groups, latest, preferred, ids, pending, definition);
      && (r.state == Value || r.state == Conflicted) && r.pending == pending && r.values != []
      && (r.values == groups || (|r.values| == 1 && (r.values[0].event == latest || r.values[0].event == preferred)))
  {
  }

  lemma ShownAreCandidates(values: seq<ResolvedValue>, groups: seq<ResolvedValue>, latest: Event, preferred: Event, candidates: seq<Event>)
    requires forall k :: 0 <= k < |groups| ==> groups[k].event in candidates
    requires latest in candidates && preferred in candidates
    requires values == groups || (|values| == 1 && (values[0].event == latest || values[0].event == preferred))
    ensures forall k :: 0 <= k < |values| ==> values[k].event in candidates
  {
  }

  lemma GroupsAreCandidates(candidates: seq<Event>)
    requires candidates != []
    ensures var groups := GroupedValues(candidates);
      groups != [] && forall k :: 0 <= k < |groups| ==> groups[k].event in candidates
  {
    OneGroup(candidates);
    forall k | 0 <= k < |GroupedValues(candidates)| ensures GroupedValues(candidates)[k].event in candidates {
      GroupOf(candidates, k);
    }
  }

  // Where there are candidates, the values shown are candidates.
  lemma CandidatesAreShown(candidates: seq<Event>, pending: seq<Event>, definition: Definition)
    requires candidates != []
    ensures var r := Resolution(candidates, pending, definition);
      && (r.state == Value || r.state == Conflicted) && r.values != [] && r.pending == pending
      && forall k :: 0 <= k < |r.values| ==> r.values[k].event in candidates
  {
    GroupsAreCandidates(candidates);
    var groups, latest, preferred := GroupedValues(candidates), Latest(candidates), Latest(Preferred(candidates));
    assert preferred in candidates;
    ChoiceShows(groups, latest, preferred, Ids(Sorted(candidates)), pending, definition);
    ShownAreCandidates(Resolution(candidates, pending, definition).values, groups, latest, preferred, candidates);
  }

  // Where there are none, the pending events are shown.
  lemma PendingAreShown(pending: seq<Event>, definition: Definition)
    ensures var r := Resolution([], pending, definition);
      && r.state == (if pending == [] then Empty else Pending) && r.values == EachAlone(pending)
  {
  }

  lemma ValueEventShape(events: seq<Event>, policy: AssertionPolicy, e: Event)
    requires Distinct(events) && e in Candidates(events, policy) && forall f :: f in events ==> EventShape(f)
    ensures |e.columns| == 1
  {
    CandidatesAre(events, policy, e);
    assert e in events;
  }

  lemma RowIsOneOf(r: FieldResolution, row: Row)
    requires row in RowsFor(r)
    ensures row.state == r.state && |RowsFor(r)| >= 1
    ensures if r.values == [] then row.source == None && row.columns == map[]
      else exists k :: 0 <= k < |r.values| && row == RowFor(r, r.values[k])
  {
    var k :| 0 <= k < |RowsFor(r)| && RowsFor(r)[k] == row;
    if r.values != [] {
      assert row == RowFor(r, r.values[k]);
    }
  }

  // The rows of a field share one state, there is at least one, and each meets the table's constraint.
  lemma RowsAreShaped(events: seq<Event>, definition: Definition, row: Row)
    requires Distinct(events) && forall e :: e in events ==> EventShape(e)
    requires row in RowsFor(Resolve(events, definition))
    ensures RowShape(row) && row.state == Resolve(events, definition).state
  {
    var policy := definition.assertionPolicy;
    var candidates, pending := Candidates(events, policy), PendingEvents(events, policy);
    var r := Resolution(candidates, pending, definition);
    RowIsOneOf(r, row);
    if candidates == [] {
      PendingAreShown(pending, definition);
    } else {
      CandidatesAreShown(candidates, pending, definition);
      var k :| 0 <= k < |r.values| && row == RowFor(r, r.values[k]);
      ValueEventShape(events, policy, r.values[k].event);
    }
  }

  // ---------------------------------------------------------------- growing the log

  lemma OtherFieldsKeepTheirLog(log: seq<Event>, longer: seq<Event>, d: Id, f: Id)
    requires Distinct(log) && Distinct(longer) && InField(log, d, f) == InField(longer, d, f)
    ensures FieldLog(longer, d, f) == FieldLog(log, d, f)
  {
    AmongDistinct(log, InField(log, d, f));
    AmongDistinct(longer, InField(longer, d, f));
    SortedAscends(Among(log, InField(log, d, f)));
    SortedAscends(Among(longer, InField(longer, d, f)));
    FieldLogIs(log, d, f);
    FieldLogIs(longer, d, f);
    AscendingUnique(FieldLog(longer, d, f), FieldLog(log, d, f));
  }

  // The ids that are new, and not in use.
  ghost predicate Fresh(log: seq<Event>, added: seq<Event>) {
    Distinct(added) && forall e, f :: e in log && f in added ==> e.id != f.id
  }

  // New events of one field, well-formed, that refer to events of the log.
  ghost predicate Extends(log: seq<Event>, added: seq<Event>, d: Id, f: Id) {
    && Fresh(log, added)
    && (forall e :: e in added ==> e.document == d && e.definition == f && EventShape(e) && RefersInside(log, e))
  }

  lemma AppendedDistinct(log: seq<Event>, added: seq<Event>)
    requires Distinct(log) && Fresh(log, added)
    ensures Distinct(log + added)
  {
    forall i, j | 0 <= i < j < |log + added| ensures (log + added)[i].id != (log + added)[j].id {
      if i < |log| && j >= |log| {
        assert log[i] in log && added[j - |log|] in added;
      }
    }
  }

  lemma RefersInsideLonger(log: seq<Event>, added: seq<Event>, e: Event)
    requires RefersInside(log, e)
    ensures RefersInside(log + added, e)
  {
    if e.target.Some? {
      var t :| t in log && t.id == e.target.value && t.document == e.document && t.definition == e.definition;
      assert t in log + added;
    }
    if e.supersedes.Some? {
      var t :| t in log && t.id == e.supersedes.value && t.document == e.document && t.definition == e.definition;
      assert t in log + added;
    }
  }

  lemma ExtensionKeepsLog(log: seq<Event>, added: seq<Event>, d: Id, f: Id, documents: set<Id>, definitions: set<Id>)
    requires LogOk(log, documents, definitions) && Extends(log, added, d, f) && d in documents && f in definitions
    ensures LogOk(log + added, documents, definitions)
  {
    AppendedDistinct(log, added);
    forall e | e in log + added ensures EventShape(e) && e.document in documents && e.definition in definitions && RefersInside(log + added, e) {
      assert e in log || e in added;
      assert RefersInside(log, e);
      RefersInsideLonger(log, added, e);
    }
  }

  predicate OfField(k: Key, d: Id, f: Id) {
    k.document == d && k.definition == f
  }

  // Only the rows of the one field are replaced.
  ghost predicate Reprojected(rows: map<Key, Row>, after: map<Key, Row>, d: Id, f: Id, expected: seq<Row>) {
    && (forall k :: !OfField(k, d, f) ==> (k in after <==> k in rows) && (k in rows ==> after[k] == rows[k]))
    && (forall k :: OfField(k, d, f) ==> (k in after <==> k.ordinal < |expected|) && (k in after ==> after[k] == expected[k.ordinal]))
  }

  lemma ProjectionKept(log: seq<Event>, added: seq<Event>, d: Id, f: Id, definitions: map<Id, Definition>, rows: map<Key, Row>, after: map<Key, Row>)
    requires Distinct(log) && Fresh(log, added) && (forall e :: e in added ==> e.document == d && e.definition == f)
    requires Projected(log, rows, definitions) && Reprojected(rows, after, d, f, FieldRows(log + added, definitions, d, f))
    ensures Projected(log + added, after, definitions)
  {
    AppendedDistinct(log, added);
    forall k ensures IsProjected(log + added, after, definitions, k) {
      if !OfField(k, d, f) {
        assert InField(log + added, k.document, k.definition) == InField(log, k.document, k.definition);
        OtherFieldsKeepTheirLog(log, log + added, k.document, k.definition);
        assert IsProjected(log, rows, definitions, k);
      }
    }
  }

  // ---------------------------------------------------------------- validate_event_relationships

  function Find(log: seq<Event>, id: Id): Option<Event> {
    if log == [] then None else if log[0].id == id then Some(log[0]) else Find(log[1..], id)
  }

  lemma {:induction false} FindIs(log: seq<Event>, id: Id)
    ensures Find(log, id).Some? ==> Find(log, id).value in log && Find(log, id).value.id == id
    ensures Find(log, id).None? ==> forall e :: e in log ==> e.id != id
  {
    if log != [] && log[0].id != id {
      FindIs(log[1..], id);
      assert log == [log[0]] + log[1..];
    }
  }

  predicate Inside(found: Option<Event>, d: Id, f: Id) {
    found.Some? && found.value.document == d && found.value.definition == f
  }

  function ValidateRelationships(log: seq<Event>, d: Id, f: Id, definition: Definition, op: Operation,
                                 target: Option<Id>, supersedes: Option<Id>): Option<Error> {
    if !definition.asserted then Some(ReadOnly)
    else if !definition.active then Some(Inactive)
    else if definition.cardinality == Single && (op == Add || op == Remove) then Some(WrongOperation)
    else if definition.cardinality == Multiple && op == Set then Some(WrongOperation)
    else if target.Some? && !Inside(Find(log, target.value), d, f) then Some(ForeignTarget)
    else if target.Some? && op == Remove && Find(log, target.value).value.op != Add then Some(WrongTarget)
    else if target.Some? && (op == Confirm || op == Reject) && !IsAssertion(Find(log, target.value).value.op) then Some(WrongTarget)
    else if supersedes.Some? && !(Inside(Find(log, supersedes.value), d, f)
                                  && Find(log, supersedes.value).value.op in {Set, Clear}) then Some(WrongSuperseded)
    else None
  }

  lemma ValidRelationships(log: seq<Event>, definition: Definition, e: Event)
    requires ValidateRelationships(log, e.document, e.definition, definition, e.op, e.target, e.supersedes) == None
    ensures RefersInside(log, e)
  {
    if e.target.Some? {
      FindIs(log, e.target.value);
    }
    if e.supersedes.Some? {
      FindIs(log, e.supersedes.value);
    }
  }
}
