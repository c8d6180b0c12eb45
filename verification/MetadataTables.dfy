/**
  The metadata tables: the log, the projected rows, and the functions of app/document_metadata.py that change
  them.  A call that raises leaves both as they were.
 */
module MetadataTables {
  import opened Common
  import opened Metadata
  import opened MetadataResolution
  import opened MetadataLaws
  import opened MetadataStore
  import opened MetadataBatch

  datatype Reading = One(value: Option<nat>) | Many(values: seq<Option<nat>>)

  function AddError(log: seq<Event>, documents: map<Id, Id>, definitions: map<Id, Definition>, matter: Id, d: Id, f: Id,
                    op: Operation, value: Raw, target: Option<Id>, supersedes: Option<Id>): Option<Error> {
    if d !in documents || documents[d] != matter then Some(DocumentNotFound)
    else if f !in definitions || definitions[f].matter != matter then Some(DefinitionNotFound)
    else if ValidateRelationships(log, d, f, definitions[f], op, target, supersedes).Some? then
      ValidateRelationships(log, d, f, definitions[f], op, target, supersedes)
    else if IsValue(op) && value.stored == None then Some(InvalidValue)
    else if target.Some? == IsAssertion(op) then Some(TargetShape)
    else None
  }

  function Columns(op: Operation, value: Raw): map<Column, nat> {
    if IsValue(op) && value.stored.Some? then map[value.stored.value.0 := value.stored.value.1] else map[]
  }

  function ApplyError(log: seq<Event>, documents: map<Id, Id>, definitions: map<Id, Definition>, matter: Id, d: Id, f: Id,
                      values: seq<Raw>, replace: bool): Option<Error> {
    if d !in documents || documents[d] != matter then Some(DocumentNotFound)
    else if f !in definitions || definitions[f].matter != matter then Some(DefinitionNotFound)
    else if definitions[f].cardinality != Multiple then Some(NotMultiple)
    else if !replace && values == [] then None
    else if !definitions[f].asserted then Some(ReadOnly)
    else if !definitions[f].active then Some(Inactive)
    else if !AllStored(values) then Some(InvalidValue)
    else None
  }

  // validate_event_relationships for an event that refers to no other
  lemma Unrelated(log: seq<Event>, d: Id, f: Id, definition: Definition, op: Operation)
    requires definition.cardinality == Multiple && (op == Add || op == Clear)
    ensures ValidateRelationships(log, d, f, definition, op, None, None)
      == if !definition.asserted then Some(ReadOnly) else if !definition.active then Some(Inactive) else None
  {
  }

  // The reading is the list of the values, one for each place.
  predicate IsList(reading: Reading, values: seq<ResolvedValue>) {
    && reading.Many? && |reading.values| == |values|
    && forall k :: 0 <= k < |values| ==> reading.values[k] == EventValue(values[k].event.columns)
  }

  // The reading is the only value there is, by itself.
  predicate IsOnly(reading: Reading, values: seq<ResolvedValue>) {
    |values| == 1 && reading == One(EventValue(values[0].event.columns))
  }

  predicate ReadsAs(reading: Reading, values: seq<ResolvedValue>, cardinality: Cardinality) {
    if cardinality == Multiple then IsList(reading, values) else IsOnly(reading, values)
  }

  // The field is among the values read exactly if it is settled, with its values.
  predicate Shows(values: map<string, Reading>, definition: Definition, r: FieldResolution) {
    && (definition.key in values <==> r.state == Value)
    && (definition.key in values ==> ReadsAs(values[definition.key], r.values, definition.cardinality))
  }

  // The field's events are all older than `now`.
  predicate Precedes(log: seq<Event>, d: Id, f: Id, now: int) {
    forall e :: e in InField(log, d, f) ==> e.created < now
  }

  lemma DeduplicatedStored(values: seq<Raw>)
    ensures AllStored(Deduplicated(values)) <==> AllStored(values)
    ensures AllStored(values) ==> GivenRanks(Deduplicated(values)) == GivenRanks(values)
  {
    var distinct := Deduplicated(values);
    if AllStored(distinct) {
      forall k | 0 <= k < |values| ensures values[k].stored.Some? {
        assert values[k] in distinct;
      }
    }
    if AllStored(values) {
      forall k | 0 <= k < |distinct| ensures distinct[k].stored.Some? {
        assert distinct[k] in values;
      }
      forall rank ensures rank in GivenRanks(distinct) <==> rank in GivenRanks(values) {
        if k :| 0 <= k < |values| && values[k].stored.value.1 + 1 == rank {
          assert values[k] in distinct;
        }
        if k :| 0 <= k < |distinct| && distinct[k].stored.value.1 + 1 == rank {
          assert distinct[k] in values;
        }
      }
    }
  }

  lemma OneRow(rows: map<Key, Row>, after: map<Key, Row>, d: Id, f: Id, expected: seq<Row>, row: Row)
    requires Reprojected(rows, after, d, f, expected)
    ensures Reprojected(rows, after[Key(d, f, |expected|) := row], d, f, expected + [row])
  {
  }

  function DeleteRows(rows: map<Key, Row>, d: Id, f: Id): (kept: map<Key, Row>)
    ensures Reprojected(rows, kept, d, f, [])
  {
    map k | k in rows && !OfField(k, d, f) :: rows[k]
  }

  // The rows of a resolution, added where those of the field were deleted.
  method AddRows(kept: map<Key, Row>, d: Id, f: Id, r: FieldResolution, ghost rows: map<Key, Row>) returns (after: map<Key, Row>)
    requires Reprojected(rows, kept, d, f, [])
    ensures Reprojected(rows, after, d, f, RowsFor(r))
  {
    ghost var expected := RowsFor(r);
    if r.values == [] {
      OneRow(rows, kept, d, f, [], expected[0]);
      return kept[Key(d, f, 0) := Row(r.state, map[], None, [], Ids(r.pending), r.conflicting)];
    }
    after := kept;
    for n := 0 to |r.values|
      invariant Reprojected(rows, after, d, f, expected[..n])
    {
      OneRow(rows, after, d, f, expected[..n], RowFor(r, r.values[n]));
      assert expected[..n + 1] == expected[..n] + [RowFor(r, r.values[n])];
      after := after[Key(d, f, n) := RowFor(r, r.values[n])];
    }
    assert expected[..|r.values|] == expected;
  }

  lemma SettledShows(events: seq<Event>, definition: Definition)
    ensures var r := Resolve(events, definition);
      && (r.state == Value ==> r.values != [] && events != [])
      && (r.state == Value && definition.cardinality == Single ==> |r.values| == 1)
  {
    var candidates, pending := Candidates(events, definition.assertionPolicy), PendingEvents(events, definition.assertionPolicy);
    if candidates == [] {
      PendingAreShown(pending, definition);
    } else {
      CandidatesAreShown(candidates, pending, definition);
      CandidatesAreEvents(events, definition.assertionPolicy);
      if definition.cardinality == Single {
        SingleFieldStates(candidates, pending, definition);
      }
    }
  }

  lemma CandidatesAreEvents(events: seq<Event>, policy: AssertionPolicy)
    ensures Candidates(events, policy) != [] ==> events != []
  {
    if Candidates(events, policy) != [] {
      var e := Candidates(events, policy)[0];
      assert e in Candidates(events, policy);
      assert e in EligibleEvents(events, policy);
      assert e in events;
    }
  }

  // The rows of the field are the expected ones.
  ghost predicate FieldProjected(rows: map<Key, Row>, d: Id, f: Id, expected: seq<Row>) {
    forall k: Key :: OfField(k, d, f) ==> (k in rows <==> k.ordinal < |expected|) && (k in rows ==> rows[k] == expected[k.ordinal])
  }

  lemma FieldIsProjected(log: seq<Event>, rows: map<Key, Row>, definitions: map<Id, Definition>, d: Id, f: Id)
    requires Projected(log, rows, definitions)
    ensures FieldProjected(rows, d, f, FieldRows(log, definitions, d, f))
  {
    forall k: Key | OfField(k, d, f)
      ensures k in rows <==> k.ordinal < |FieldRows(log, definitions, d, f)|
      ensures k in rows ==> rows[k] == FieldRows(log, definitions, d, f)[k.ordinal]
    {
      assert IsProjected(log, rows, definitions, k);
    }
  }

  lemma ReadRows(log: seq<Event>, documents: set<Id>, definitions: map<Id, Definition>, d: Id, f: Id, r: FieldResolution)
    requires LogOk(log, documents, definitions.Keys) && f in definitions && r == Resolve(FieldLog(log, d, f), definitions[f])
    ensures r.state == Value ==> r.values != [] && FieldRows(log, definitions, d, f) == RowsFor(r)
    ensures r.state == Value && definitions[f].cardinality == Single ==> |r.values| == 1
    ensures forall k :: 0 <= k < |FieldRows(log, definitions, d, f)| ==> FieldRows(log, definitions, d, f)[k].state == r.state
  {
    SettledShows(FieldLog(log, d, f), definitions[f]);
    if FieldRows(log, definitions, d, f) != [] {
      SharedState(log, documents, definitions, d, f);
    }
  }

  // SELECT ... WHERE resolution_state = 'VALUE' ORDER BY value_ordinal
  method SelectValueRows(rows: map<Key, Row>, d: Id, f: Id, ghost expected: seq<Row>, ghost state: ResolutionState) returns (found: seq<Row>)
    requires FieldProjected(rows, d, f, expected) && forall k :: 0 <= k < |expected| ==> expected[k].state == state
    ensures found == if state == Value then expected else []
  {
    found := [];
    var todo := set k | k in rows && OfField(k, d, f) && rows[k].state == Value;
    ghost var n := if state == Value then |expected| else 0;
    while todo != {}
      invariant |found| <= n && found == expected[..|found|]
      invariant forall k :: k in todo <==> OfField(k, d, f) && |found| <= k.ordinal < n
      decreases n - |found|
    {
      assert Key(d, f, |found|) in todo by {
        var k :| k in todo;
      }
      var k :| k in todo && forall other :: other in todo ==> k.ordinal <= other.ordinal;
      assert k == Key(d, f, |found|);
      found := found + [rows[k]];
      todo := todo - {k};
    }
    assert Key(d, f, |found|) !in todo;
  }

  method Present(found: seq<Row>, cardinality: Cardinality, ghost r: FieldResolution) returns (reading: Option<Reading>)
    requires found == if r.state == Value then RowsFor(r) else []
    requires r.state == Value ==> r.values != [] && (cardinality == Single ==> |r.values| == 1)
    ensures reading.Some? <==> r.state == Value
    ensures reading.Some? ==> ReadsAs(reading.value, r.values, cardinality)
  {
    if found == [] {
      return None;
    }
    var resolved := seq(|found|, k requires 0 <= k < |found| => EventValue(found[k].columns));
    return Some(if cardinality == Multiple then Many(resolved) else One(resolved[0]));
  }

  predicate KeysDiffer(definitions: map<Id, Definition>, fields: set<Id>)
    requires fields <= definitions.Keys
  {
    forall f, g :: f in fields && g in fields && definitions[f].key == definitions[g].key ==> f == g
  }

  predicate IsRead(readings: map<Id, Reading>, f: Id, r: FieldResolution, cardinality: Cardinality) {
    && (f in readings <==> r.state == Value)
    && (f in readings ==> ReadsAs(readings[f], r.values, cardinality))
  }

  method ReadField(log: seq<Event>, rows: map<Key, Row>, documents: map<Id, Id>, definitions: map<Id, Definition>, d: Id, f: Id,
                   ghost r: FieldResolution)
    returns (reading: Option<Reading>)
    requires LogOk(log, documents.Keys, definitions.Keys) && Projected(log, rows, definitions)
    requires f in definitions && r == Resolve(FieldLog(log, d, f), definitions[f])
    ensures reading.Some? <==> r.state == Value
    ensures reading.Some? ==> ReadsAs(reading.value, r.values, definitions[f].cardinality)
  {
    ghost var expected := FieldRows(log, definitions, d, f);
    FieldIsProjected(log, rows, definitions, d, f);
    ReadRows(log, documents.Keys, definitions, d, f, r);
    var found := SelectValueRows(rows, d, f, expected, r.state);
    reading := Present(found, definitions[f].cardinality, r);
  }

  ghost predicate IsResolved(log: seq<Event>, definitions: map<Id, Definition>, d: Id, f: Id, resolved: map<Id, FieldResolution>) {
    f in definitions && f in resolved && resolved[f] == Resolve(FieldLog(log, d, f), definitions[f])
  }

  // The resolution of each of the fields.
  ghost predicate AreResolved(log: seq<Event>, definitions: map<Id, Definition>, d: Id, fields: set<Id>, resolved: map<Id, FieldResolution>) {
    fields <= definitions.Keys && fields <= resolved.Keys
    && forall f {:trigger IsResolved(log, definitions, d, f, resolved)} :: f in fields ==> IsResolved(log, definitions, d, f, resolved)
  }

  ghost predicate AreRead(readings: map<Id, Reading>, definitions: map<Id, Definition>, done: set<Id>, resolved: map<Id, FieldResolution>) {
    && readings.Keys <= done <= definitions.Keys && done <= resolved.Keys
    && forall f :: f in done ==> IsRead(readings, f, resolved[f], definitions[f].cardinality)
  }

  lemma OneMoreRead(readings: map<Id, Reading>, definitions: map<Id, Definition>, done: set<Id>, resolved: map<Id, FieldResolution>, f: Id, reading: Option<Reading>)
    requires AreRead(readings, definitions, done, resolved) && f !in done && f in definitions && f in resolved
    requires reading.Some? <==> resolved[f].state == Value
    requires reading.Some? ==> ReadsAs(reading.value, resolved[f].values, definitions[f].cardinality)
    ensures AreRead(if reading.Some? then readings[f := reading.value] else readings, definitions, done + {f}, resolved)
  {
  }

  lemma OneLess(fields: set<Id>, todo: set<Id>, f: Id)
    requires f in todo && todo <= fields
    ensures fields - (todo - {f}) == (fields - todo) + {f}
  {
  }

  // rows_by_definition
  method ReadFields(log: seq<Event>, rows: map<Key, Row>, documents: map<Id, Id>, definitions: map<Id, Definition>, d: Id, fields: set<Id>,
                    ghost resolved: map<Id, FieldResolution>)
    returns (readings: map<Id, Reading>)
    requires LogOk(log, documents.Keys, definitions.Keys) && Projected(log, rows, definitions)
    requires AreResolved(log, definitions, d, fields, resolved)
    ensures AreRead(readings, definitions, fields, resolved)
  {
    readings := map[];
    var todo := fields;
    while todo != {}
      invariant todo <= fields && AreRead(readings, definitions, fields - todo, resolved)
      decreases todo
    {
      var f :| f in todo;
      assert IsResolved(log, definitions, d, f, resolved);
      var reading := ReadField(log, rows, documents, definitions, d, f, resolved[f]);
      OneMoreRead(readings, definitions, fields - todo, resolved, f, reading);
      OneLess(fields, todo, f);
      if reading.Some? {
        readings := readings[f := reading.value];
      }
      todo := todo - {f};
    }
    assert fields - {} == fields;
  }

  // for definition_id, rows in rows_by_definition.items(): values[definition.key] = ...
  method ByKey(definitions: map<Id, Definition>, fields: set<Id>, readings: map<Id, Reading>, ghost resolved: map<Id, FieldResolution>)
    returns (values: map<string, Reading>)
    requires AreRead(readings, definitions, fields, resolved) && KeysDiffer(definitions, fields)
    ensures forall f :: f in fields ==> Shows(values, definitions[f], resolved[f])
    ensures forall key :: key in values ==> exists f :: f in fields && definitions[f].key == key
  {
    values := map[];
    var todo := readings.Keys;
    while todo != {}
      invariant todo <= readings.Keys
      invariant forall f :: f in readings && f !in todo ==> definitions[f].key in values && values[definitions[f].key] == readings[f]
      invariant forall key :: key in values ==> exists f :: f in readings && f !in todo && definitions[f].key == key
      decreases todo
    {
      var f :| f in todo;
      values := values[definitions[f].key := readings[f]];
      todo := todo - {f};
    }
  }

  // The row of the value at place n: its columns, the event it comes from and those that support it, beside the state
  // and the pending and conflicting events of the field.
  predicate IsValueRow(row: Row, r: FieldResolution, n: nat)
    requires n < |r.values|
  {
    && row.columns == r.values[n].event.columns && row.source == Some(r.values[n].event.id) && row.supporting == r.values[n].supporting
    && row.state == r.state && row.conflicting == r.conflicting && IsPendingList(row.pending, r.pending)
  }

  predicate IsPendingList(ids: seq<Id>, pending: seq<Event>) {
    |ids| == |pending| && forall k :: 0 <= k < |ids| ==> ids[k] == pending[k].id
  }

  // The row of a field without a value to show.
  predicate IsEmptyRow(row: Row, r: FieldResolution) {
    && row.columns == map[] && row.source == None && row.supporting == []
    && row.state == r.state && row.conflicting == r.conflicting && IsPendingList(row.pending, r.pending)
  }

  // The field has one row for each value, or a single one without a value.
  ghost predicate FieldStored(rows: map<Key, Row>, d: Id, f: Id, r: FieldResolution) {
    && (forall k :: OfField(k, d, f) ==> (k in rows <==> k.ordinal < |r.values| || (r.values == [] && k.ordinal == 0)))
    && (r.values == [] ==> Key(d, f, 0) in rows && IsEmptyRow(rows[Key(d, f, 0)], r))
    && (forall n :: 0 <= n < |r.values| ==> Key(d, f, n) in rows && IsValueRow(rows[Key(d, f, n)], r, n))
  }

  lemma RowsAre(r: FieldResolution)
    ensures r.values == [] ==> |RowsFor(r)| == 1 && IsEmptyRow(RowsFor(r)[0], r)
    ensures r.values != [] ==> |RowsFor(r)| == |r.values| && forall n :: 0 <= n < |r.values| ==> IsValueRow(RowsFor(r)[n], r, n)
  {
  }

  lemma RowsAreStored(rows: map<Key, Row>, after: map<Key, Row>, d: Id, f: Id, r: FieldResolution)
    requires Reprojected(rows, after, d, f, RowsFor(r))
    ensures FieldStored(after, d, f, r)
  {
    RowsAre(r);
    forall n | 0 <= n < |RowsFor(r)| ensures Key(d, f, n) in after && after[Key(d, f, n)] == RowsFor(r)[n] {
      assert OfField(Key(d, f, n), d, f);
    }
  }

  // The event `t` of the log belongs to the field.
  predicate IsEvent(log: seq<Event>, d: Id, f: Id, id: Id, t: Event) {
    t in log && t.id == id && t.document == d && t.definition == f
  }

  // The document and the field are there, and the field takes values from callers.
  predicate IsWritable(documents: map<Id, Id>, definitions: map<Id, Definition>, matter: Id, d: Id, f: Id) {
    && d in documents && documents[d] == matter && f in definitions && definitions[f].matter == matter
    && definitions[f].asserted && definitions[f].active
  }

  // SINGLE fields take SET and CLEAR, MULTIPLE fields ADD, REMOVE and CLEAR, and both CONFIRM and REJECT.
  predicate FitsCardinality(cardinality: Cardinality, op: Operation) {
    match op
    case Set => cardinality == Single
    case Add => cardinality == Multiple
    case Remove => cardinality == Multiple
    case _ => true
  }

  // REMOVE, CONFIRM and REJECT name an event of the field: REMOVE an ADD, the other two a SET, ADD or CLEAR.
  ghost predicate FitsTarget(log: seq<Event>, d: Id, f: Id, op: Operation, target: Option<Id>) {
    match op
    case Remove => target.Some? && exists t :: IsEvent(log, d, f, target.value, t) && t.op == Add
    case Confirm => target.Some? && exists t :: IsEvent(log, d, f, target.value, t) && (t.op == Set || t.op == Add || t.op == Clear)
    case Reject => target.Some? && exists t :: IsEvent(log, d, f, target.value, t) && (t.op == Set || t.op == Add || t.op == Clear)
    case _ => target == None
  }

  ghost predicate FitsSuperseded(log: seq<Event>, d: Id, f: Id, supersedes: Option<Id>) {
    supersedes.Some? ==> exists t :: IsEvent(log, d, f, supersedes.value, t) && (t.op == Set || t.op == Clear)
  }

  // What add_metadata_event accepts.
  ghost predicate Accepts(log: seq<Event>, documents: map<Id, Id>, definitions: map<Id, Definition>, matter: Id, d: Id, f: Id,
                          op: Operation, value: Raw, target: Option<Id>, supersedes: Option<Id>) {
    && IsWritable(documents, definitions, matter, d, f) && FitsCardinality(definitions[f].cardinality, op)
    && FitsTarget(log, d, f, op, target) && FitsSuperseded(log, d, f, supersedes)
    && (op == Set || op == Add ==> value.stored.Some?)
  }

  lemma FoundIs(log: seq<Event>, d: Id, f: Id, id: Id, t: Event)
    requires Distinct(log)
    ensures IsEvent(log, d, f, id, t) <==> Inside(Find(log, id), d, f) && Find(log, id).value == t
  {
    FindIs(log, id);
    if t in log && t.id == id {
      SameId(log, Find(log, id).value, t);
    }
  }

  lemma TargetFits(log: seq<Event>, d: Id, f: Id, op: Operation, target: Option<Id>)
    requires Distinct(log)
    ensures FitsTarget(log, d, f, op, target) <==>
      (target.Some? <==> !IsAssertion(op))
      && (target.Some? ==> Inside(Find(log, target.value), d, f)
                           && (op == Remove ==> Find(log, target.value).value.op == Add)
                           && (op == Confirm || op == Reject ==> IsAssertion(Find(log, target.value).value.op)))
  {
    if target.Some? {
      forall t ensures IsEvent(log, d, f, target.value, t) <==> Inside(Find(log, target.value), d, f) && Find(log, target.value).value == t {
        FoundIs(log, d, f, target.value, t);
      }
    }
  }

  lemma SupersededFits(log: seq<Event>, d: Id, f: Id, supersedes: Option<Id>)
    requires Distinct(log)
    ensures FitsSuperseded(log, d, f, supersedes) <==>
      (supersedes.Some? ==> Inside(Find(log, supersedes.value), d, f) && Find(log, supersedes.value).value.op in {Set, Clear})
  {
    if supersedes.Some? {
      forall t ensures IsEvent(log, d, f, supersedes.value, t) <==> Inside(Find(log, supersedes.value), d, f) && Find(log, supersedes.value).value == t {
        FoundIs(log, d, f, supersedes.value, t);
      }
    }
  }

  // An event is refused exactly if it does not fit.
  lemma AcceptedExactly(log: seq<Event>, documents: map<Id, Id>, definitions: map<Id, Definition>, matter: Id, d: Id, f: Id,
                        op: Operation, value: Raw, target: Option<Id>, supersedes: Option<Id>)
    requires Distinct(log)
    ensures AddError(log, documents, definitions, matter, d, f, op, value, target, supersedes) == None
      <==> Accepts(log, documents, definitions, matter, d, f, op, value, target, supersedes)
  {
    TargetFits(log, d, f, op, target);
    SupersededFits(log, d, f, supersedes);
  }

  // The events that one call of apply_metadata_values adds: a CLEAR at the base time where the values replace the old
  // ones, and one ADD for each value, a microsecond apart.
  ghost predicate AreApplied(added: seq<Event>, d: Id, f: Id, values: seq<Raw>, replace: bool, source: Source, ids: seq<Id>, now: int) {
    var n := if replace then 1 else 0;
    && |added| == n + |values| && |values| < |ids| && AllStored(values)
    && (replace ==> added[0] == Event(ids[0], d, f, Clear, map[], source, None, None, now))
    && (forall k :: 0 <= k < |values| ==>
          added[n + k] == Event(ids[k + 1], d, f, Add, map[values[k].stored.value.0 := values[k].stored.value.1], source, None, None, now + k + 1))
  }

  lemma BatchIsApplied(d: Id, f: Id, values: seq<Raw>, replace: bool, source: Source, ids: seq<Id>, now: int)
    requires AllStored(values) && |values| < |ids|
    ensures AreApplied(Batch(d, f, values, replace, source, ids, now), d, f, values, replace, source, ids, now)
  {
  }

  class Tables {
    const documents: map<Id, Id>               // document -> matter
    const definitions: map<Id, Definition>
    var log: seq<Event>
    var rows: map<Key, Row>

    ghost predicate Valid()
      reads this
    {
      LogOk(log, documents.Keys, definitions.Keys) && Projected(log, rows, definitions)
    }

    constructor (documents: map<Id, Id>, definitions: map<Id, Definition>)
      ensures Valid() && log == [] && rows == map[]
      ensures this.documents == documents && this.definitions == definitions
    {
      this.documents, this.definitions := documents, definitions;
      log, rows := [], map[];
    }

    // The resolution of one field by its whole log.
    function Resolved(d: Id, f: Id): FieldResolution
      requires f in definitions
      reads this
    {
      Resolve(FieldLog(log, d, f), definitions[f])
    }

    // project_field
    method ProjectField(d: Id, f: Id) returns (r: FieldResolution)
      requires f in definitions
      modifies this`rows
      ensures r == Resolved(d, f) && Reprojected(old(rows), rows, d, f, RowsFor(r))
      ensures forall k :: !OfField(k, d, f) ==> (k in rows <==> k in old(rows)) && (k in rows ==> rows[k] == old(rows)[k])
      ensures FieldStored(rows, d, f, r)
    {
      r := ResolveField(FieldLog(log, d, f), definitions[f]);
      ghost var before := rows;
      rows := AddRows(DeleteRows(rows, d, f), d, f, r, rows);
      RowsAreStored(before, rows, d, f, r);
    }

    // The events are appended to the log of the field, which is projected anew.
    method Append(added: seq<Event>, d: Id, f: Id) returns (r: FieldResolution)
      requires Valid() && d in documents && f in definitions && added != [] && Extends(log, added, d, f)
      modifies this
      ensures Valid() && log == old(log) + added && r == Resolved(d, f)
    {
      ExtensionKeepsLog(log, added, d, f, documents.Keys, definitions.Keys);
      SomeEvent(log, added, d, f);
      log := log + added;
      r := ProjectField(d, f);
      ProjectionKept(old(log), added, d, f, definitions, old(rows), rows);
    }

    // add_metadata_event; `id` and `now` are the generated id and creation time
    method AddMetadataEvent(matter: Id, d: Id, f: Id, op: Operation, value: Raw, source: Source, target: Option<Id>,
                            supersedes: Option<Id>, id: Id, now: int) returns (r: Result<FieldResolution, Error>)
      requires Valid() && forall e :: e in log ==> e.id != id
      modifies this
      ensures Valid()
      ensures var error := old(AddError(log, documents, definitions, matter, d, f, op, value, target, supersedes));
        if error.Some? then r == Err(error.value) && log == old(log) && rows == old(rows)
        else log == old(log) + [Event(id, d, f, op, Columns(op, value), source, target, supersedes, now)]
             && f in definitions && r == Ok(Resolved(d, f))
      ensures r.Ok? <==> Accepts(old(log), documents, definitions, matter, d, f, op, value, target, supersedes)
      ensures r.Ok? && (op == Set || op == Add) ==> log[|old(log)|].columns == map[value.stored.value.0 := value.stored.value.1]
      ensures r.Ok? && op != Set && op != Add ==> log[|old(log)|].columns == map[]
    {
      AcceptedExactly(log, documents, definitions, matter, d, f, op, value, target, supersedes);
      if d !in documents || documents[d] != matter {
        return Err(DocumentNotFound);
      }
      if f !in definitions || definitions[f].matter != matter {
        return Err(DefinitionNotFound);
      }
      var invalid := ValidateRelationships(log, d, f, definitions[f], op, target, supersedes);
      if invalid.Some? {
        return Err(invalid.value);
      }
      if IsValue(op) && value.stored == None {
        return Err(InvalidValue);
      }
      if target.Some? == IsAssertion(op) {
        return Err(TargetShape);
      }
      var event := Event(id, d, f, op, Columns(op, value), source, target, supersedes, now);
      ValidRelationships(log, definitions[f], event);
      var resolution := Append([event], d, f);
      return Ok(resolution);
    }

    // apply_metadata_values; `ids` and `now` are the generated ids and the base time
    method ApplyMetadataValues(matter: Id, d: Id, f: Id, values: seq<Raw>, replace: bool, source: Source, ids: seq<Id>, now: int)
      returns (r: Result<Option<FieldResolution>, Error>)
      requires Valid() && |values| < |ids| && FreshIds(log, ids)
      modifies this
      ensures Valid()
      ensures r.Err? <==> old(ApplyError(log, documents, definitions, matter, d, f, values, replace)).Some?
      ensures r.Err? ==> Some(r.error) == old(ApplyError(log, documents, definitions, matter, d, f, values, replace))
      ensures r.Err? || (!replace && values == []) ==> log == old(log) && rows == old(rows)
      ensures r.Ok? && !replace && values == [] ==> r.value == None
      ensures r.Ok? && (replace || values != []) ==> f in definitions && AllStored(Deduplicated(values)) && AllStored(values)
      ensures r.Ok? && (replace || values != []) ==> log == old(log) + Batch(d, f, Deduplicated(values), replace, source, ids, now)
      ensures r.Ok? && (replace || values != []) ==>
        AreApplied(log[|old(log)|..], d, f, Deduplicated(values), replace, source, ids, now)
      ensures r.Ok? <==> d in documents && documents[d] == matter && f in definitions && definitions[f].matter == matter
                         && definitions[f].cardinality == Multiple
                         && (replace || values != [] ==> definitions[f].asserted && definitions[f].active && AllStored(values))
      ensures r.Ok? && (replace || values != []) ==> r.value == Some(Resolved(d, f))
      ensures r.Ok? && (replace || values != []) && definitions[f].assertionPolicy == Immediate && Precedes(old(log), d, f, now) ==>
        ShownRanks(r.value.value) == GivenRanks(values) + (if replace then {} else ShownRanks(old(Resolved(d, f))))
    {
      if d !in documents || documents[d] != matter {
        return Err(DocumentNotFound);
      }
      if f !in definitions || definitions[f].matter != matter {
        return Err(DefinitionNotFound);
      }
      if definitions[f].cardinality != Multiple {
        return Err(NotMultiple);
      }
      if !replace && values == [] {
        return Ok(None);
      }
      var events: Result<seq<Event>, Error> := BuildBatch(d, f, values, replace, source, ids, now);
      if events.Err? {
        return Err(events.error);
      }
      var distinct := Deduplicated(values);
      BatchExtends(log, d, f, distinct, replace, source, ids, now);
      if definitions[f].assertionPolicy == Immediate && Precedes(log, d, f, now) {
        AppliedValuesAreShown(log, d, f, distinct, replace, source, ids, now, definitions[f]);
        DeduplicatedStored(values);
      }
      BatchIsApplied(d, f, distinct, replace, source, ids, now);
      var resolution := Append(events.value, d, f);
      return Ok(Some(resolution));
    }

    // The events of one call, each validated before it is built.
    method BuildBatch(d: Id, f: Id, values: seq<Raw>, replace: bool, source: Source, ids: seq<Id>, now: int)
      returns (r: Result<seq<Event>, Error>)
      requires f in definitions && definitions[f].cardinality == Multiple && |values| < |ids| && (replace || values != [])
      ensures var definition := definitions[f];
        if !definition.asserted then r == Err(ReadOnly)
        else if !definition.active then r == Err(Inactive)
        else if !AllStored(values) then r == Err(InvalidValue)
        else AllStored(Deduplicated(values)) && r == Ok(Batch(d, f, Deduplicated(values), replace, source, ids, now))
    {
      var events: seq<Event> := [];
      Unrelated(log, d, f, definitions[f], Clear);
      Unrelated(log, d, f, definitions[f], Add);
      if replace {
        var invalid := ValidateRelationships(log, d, f, definitions[f], Clear, None, None);
        if invalid.Some? {
          return Err(invalid.value);
        }
        events := [ClearEvent(d, f, source, ids[0], now)];
      }
      ghost var clears := events;
      var distinct := Deduplicated(values);
      DeduplicatedStored(values);
      assert values != [] ==> values[0] in distinct;
      assert clears + [] == clears;
      for i := 0 to |distinct|
        invariant AllStored(distinct[..i]) && events == clears + Additions(d, f, distinct[..i], source, ids, now)
        invariant i > 0 || replace ==> definitions[f].asserted && definitions[f].active
      {
        var invalid := ValidateRelationships(log, d, f, definitions[f], Add, None, None);
        if invalid.Some? {
          return Err(invalid.value);
        }
        if distinct[i].stored == None {
          assert !AllStored(distinct);
          return Err(InvalidValue);
        }
        assert distinct[..i + 1] == distinct[..i] + [distinct[i]];
        OneAddition(d, f, distinct, source, ids, now, i);
        EventAppended(clears, Additions(d, f, distinct[..i], source, ids, now), AddEvent(d, f, distinct[i], source, ids[i + 1], now, i));
        events := events + [AddEvent(d, f, distinct[i], source, ids[i + 1], now, i)];
      }
      assert distinct[..|distinct|] == distinct;
      return Ok(events);
    }

    // current_metadata_values
    method CurrentMetadataValues(d: Id, fields: set<Id>) returns (values: map<string, Reading>)
      requires Valid() && fields <= definitions.Keys && KeysDiffer(definitions, fields)
      ensures forall f :: f in fields ==> (definitions[f].key in values <==> Resolved(d, f).state == Value)
      ensures forall f :: f in fields && Resolved(d, f).state == Value && definitions[f].cardinality == Multiple ==>
        IsList(values[definitions[f].key], Resolved(d, f).values)
      ensures forall f :: f in fields && Resolved(d, f).state == Value && definitions[f].cardinality == Single ==>
        IsOnly(values[definitions[f].key], Resolved(d, f).values)
      ensures forall key :: key in values ==> exists f :: f in fields && definitions[f].key == key
    {
      ghost var resolved := map f | f in fields :: Resolved(d, f);
      var readings := ReadFields(log, rows, documents, definitions, d, fields, resolved);
      values := ByKey(definitions, fields, readings, resolved);
      forall f | f in fields ensures Shows(values, definitions[f], Resolved(d, f)) {
        assert resolved[f] == Resolved(d, f);
      }
    }
  }

  // ---------------------------------------------------------------- what is read after values were applied

  function GivenValues(values: seq<Raw>): set<Option<nat>>
    requires AllStored(values)
  {
    set k | 0 <= k < |values| :: Some(values[k].stored.value.1)
  }

  ghost function ValuesOf(r: FieldResolution): set<Option<nat>> {
    set k | 0 <= k < |r.values| :: EventValue(r.values[k].event.columns)
  }

  function Level(v: Option<nat>): nat {
    match v case None => 0 case Some(n) => n + 1
  }

  lemma ShownAt(r: FieldResolution, v: Option<nat>)
    ensures v in ValuesOf(r) <==> Level(v) in ShownRanks(r)
  {
    if Level(v) in ShownRanks(r) {
      var k :| 0 <= k < |r.values| && Rank(r.values[k].event) == Level(v);
      assert EventValue(r.values[k].event.columns) == v;
    }
    if v in ValuesOf(r) {
      var k :| 0 <= k < |r.values| && EventValue(r.values[k].event.columns) == v;
      assert Rank(r.values[k].event) == Level(v);
    }
  }

  lemma GivenAt(values: seq<Raw>, v: Option<nat>)
    requires AllStored(values)
    ensures v in GivenValues(values) <==> Level(v) in GivenRanks(values)
  {
    if Level(v) in GivenRanks(values) {
      var k :| 0 <= k < |values| && values[k].stored.value.1 + 1 == Level(v);
      assert Some(values[k].stored.value.1) == v;
    }
    if v in GivenValues(values) {
      var k :| 0 <= k < |values| && Some(values[k].stored.value.1) == v;
    }
  }

  lemma ListHolds(reading: Reading, r: FieldResolution)
    requires IsList(reading, r.values)
    ensures forall v :: v in reading.values <==> v in ValuesOf(r)
  {
    forall v | v in ValuesOf(r) ensures v in reading.values {
      var k :| 0 <= k < |r.values| && EventValue(r.values[k].event.columns) == v;
      assert reading.values[k] == v;
    }
  }

  // After values were applied to a field of several values, a reader gets a list: of exactly the given values when they
  // replace the old ones, of the old and the given ones otherwise, in ascending order and each value once.
  lemma AppliedValuesAreRead(log: seq<Event>, d: Id, f: Id, values: seq<Raw>, replace: bool, source: Source, ids: seq<Id>, base: int,
                             definition: Definition, reading: Reading)
    requires AllStored(values) && |values| < |ids| && FreshIds(log, ids)
    requires Distinct(log) && RefersToItself(log) && Precedes(log, d, f, base)
    requires definition.cardinality == Multiple && definition.assertionPolicy == Immediate
    requires var batch := Batch(d, f, values, replace, source, ids, base);
      ReadsAs(reading, Resolve(FieldLog(log + batch, d, f), definition).values, definition.cardinality)
    ensures reading.Many?
    ensures forall v :: v in reading.values <==>
      v in GivenValues(values) || (!replace && v in ValuesOf(Resolve(FieldLog(log, d, f), definition)))
    ensures forall i, j :: 0 <= i < j < |reading.values| ==> Level(reading.values[i]) < Level(reading.values[j])
  {
    var before := Resolve(FieldLog(log, d, f), definition);
    var after := Resolve(FieldLog(log + Batch(d, f, values, replace, source, ids, base), d, f), definition);
    AppliedValuesAreShown(log, d, f, values, replace, source, ids, base, definition);
    ListHolds(reading, after);
    forall v ensures v in reading.values <==> v in GivenValues(values) || (!replace && v in ValuesOf(before)) {
      ShownAt(before, v);
      ShownAt(after, v);
      GivenAt(values, v);
    }
    forall i, j | 0 <= i < j < |reading.values| ensures Level(reading.values[i]) < Level(reading.values[j]) {
      assert Rank(after.values[i].event) < Rank(after.values[j].event);
    }
  }

  lemma SomeEvent(log: seq<Event>, added: seq<Event>, d: Id, f: Id)
    requires Extends(log, added, d, f) && added != []
    ensures FieldLog(log + added, d, f) != []
  {
    var e := added[0];
    assert e in log + added && e in InField(log + added, d, f);
    assert e in FieldLog(log + added, d, f);
  }

  lemma EventAppended(clears: seq<Event>, additions: seq<Event>, e: Event)
    ensures clears + additions + [e] == clears + (additions + [e])
  {
  }

  lemma OneAddition(d: Id, f: Id, values: seq<Raw>, source: Source, ids: seq<Id>, base: int, i: nat)
    requires i < |values| < |ids| && AllStored(values[..i]) && values[i].stored.Some?
    ensures AllStored(values[..i + 1])
    ensures Additions(d, f, values[..i + 1], source, ids, base)
      == Additions(d, f, values[..i], source, ids, base) + [AddEvent(d, f, values[i], source, ids[i + 1], base, i)]
  {
    var longer := values[..i + 1];
    forall k | 0 <= k < |longer| ensures longer[k].stored.Some? {
      assert k < i ==> longer[k] == values[..i][k];
    }
  }

  // All rows of a field are in the state of its resolution.
  lemma SharedState(log: seq<Event>, documents: set<Id>, definitions: map<Id, Definition>, d: Id, f: Id)
    requires LogOk(log, documents, definitions.Keys) && FieldRows(log, definitions, d, f) != []
    ensures f in definitions && FieldLog(log, d, f) != []
    ensures forall k :: 0 <= k < |FieldRows(log, definitions, d, f)| ==>
      RowShape(FieldRows(log, definitions, d, f)[k])
      && FieldRows(log, definitions, d, f)[k].state == Resolve(FieldLog(log, d, f), definitions[f]).state
  {
    FieldLogIs(log, d, f);
    var rows := FieldRows(log, definitions, d, f);
    forall e | e in FieldLog(log, d, f) ensures EventShape(e) {
      assert e in Elements(FieldLog(log, d, f));
    }
    forall k | 0 <= k < |rows|
      ensures RowShape(rows[k]) && rows[k].state == Resolve(FieldLog(log, d, f), definitions[f]).state
    {
      RowsAreShaped(FieldLog(log, d, f), definitions[f], rows[k]);
    }
  }

  // In every state of the tables: the rows of a field have the ordinals 0 to n - 1, with n >= 1 as soon as the
  // field has an event; they share one state and meet the table's constraint; and a single-valued field with a
  // value has exactly one row.
  lemma StoredRows(t: Tables, d: Id, f: Id) returns (n: nat)
    requires t.Valid() && f in t.definitions
    ensures n == 0 <==> InField(t.log, d, f) == {}
    ensures forall k: Key :: OfField(k, d, f) ==> (k in t.rows <==> k.ordinal < n)
    ensures forall k: Key :: k in t.rows && OfField(k, d, f) ==> RowShape(t.rows[k]) && t.rows[k].state == t.Resolved(d, f).state
    ensures n > 0 && t.definitions[f].cardinality == Single && t.Resolved(d, f).state == Value ==> n == 1
  {
    n := |FieldRows(t.log, t.definitions, d, f)|;
    FieldLogIs(t.log, d, f);
    NoElements(FieldLog(t.log, d, f));
    if n > 0 {
      SharedState(t.log, t.documents.Keys, t.definitions, d, f);
    }
    forall k: Key | OfField(k, d, f)
      ensures k in t.rows <==> k.ordinal < n
      ensures k in t.rows ==> RowShape(t.rows[k]) && t.rows[k].state == t.Resolved(d, f).state
    {
      assert IsProjected(t.log, t.rows, t.definitions, k);
    }
    SettledShows(FieldLog(t.log, d, f), t.definitions[f]);
  }
}
