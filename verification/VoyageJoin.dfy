/** Joining the unordered answers of a batch back to the items of its manifest (app/voyage_batch.py). */
module VoyageJoin {
  import opened Common
  import opened VoyageBatch

  // ---------------------------------------------------------------- _load_manifest

  predicate ValidIds(ids: seq<string>) {
    ids != [] && "" !in ids
  }

  function ManifestOf(entries: seq<Mapping>): (manifest: map<CustomId, seq<string>>)
    ensures forall custom :: custom in manifest <==> exists m :: m in entries && m.custom == custom
  {
    if entries == [] then map[]
    else
      var front, last := entries[..|entries| - 1], entries[|entries| - 1];
      assert entries == front + [last];
      ManifestOf(front)[last.custom := last.ids]
  }

  predicate DistinctCustoms(entries: seq<Mapping>) {
    forall i, j :: 0 <= i < j < |entries| ==> entries[i].custom != entries[j].custom
  }

  predicate ManifestOk(lines: seq<ManifestLine>) {
    && Malformed !in lines && Values(lines) != [] && DistinctCustoms(Values(lines))
    && forall m :: m in Values(lines) ==> ValidIds(m.ids)
  }

  lemma ManifestSnoc(entries: seq<Mapping>, m: Mapping)
    ensures ManifestOf(entries + [m]) == ManifestOf(entries)[m.custom := m.ids]
  {
    assert (entries + [m])[..|entries|] == entries;
  }

  lemma RepeatedCustom(some: seq<Mapping>, all: seq<Mapping>)
    requires |some| < |all| && all[..|some|] == some && all[|some|].custom in ManifestOf(some)
    ensures !DistinctCustoms(all)
  {
    var m :| m in some && m.custom == all[|some|].custom;
    var i :| 0 <= i < |some| && some[i] == m;
    assert all[i] == m;
  }

  lemma ManifestEmpty(entries: seq<Mapping>)
    ensures ManifestOf(entries) == map[] <==> entries == []
  {
    if entries != [] {
      assert entries[0] in entries;
      assert entries[0].custom in ManifestOf(entries);
    }
  }

  ghost predicate Loaded(entries: seq<Mapping>, manifest: map<CustomId, seq<string>>) {
    && manifest == ManifestOf(entries) && DistinctCustoms(entries)
    && forall m :: m in entries ==> ValidIds(m.ids)
  }

  lemma LoadOne(entries: seq<Mapping>, m: Mapping, manifest: map<CustomId, seq<string>>)
    requires Loaded(entries, manifest) && ValidIds(m.ids) && m.custom !in manifest
    ensures Loaded(entries + [m], manifest[m.custom := m.ids])
  {
    ManifestSnoc(entries, m);
    forall i | 0 <= i < |entries| ensures entries[i].custom != m.custom {
      assert entries[i] in entries;
    }
  }

  method LoadManifest(lines: seq<ManifestLine>) returns (r: Result<map<CustomId, seq<string>>, Error>)
    ensures r.Ok? <==> ManifestOk(lines)
    ensures r.Ok? ==> r.value == ManifestOf(Values(lines))
  {
    var manifest: map<CustomId, seq<string>> := map[];
    for k := 0 to |lines|
      invariant Malformed !in lines[..k] && Loaded(Values(lines[..k]), manifest)
    {
      assert lines[..k + 1] == lines[..k] + [lines[k]];
      ValuesSnoc(lines[..k], lines[k]);
      if lines[k].Malformed? {
        return Err(InvalidManifest);
      }
      if lines[k].Entry? {
        var m := lines[k].value;
        NextValue(lines, k);
        if m.ids == [] || "" in m.ids {
          assert m in Values(lines);
          return Err(InvalidManifest);
        }
        if m.custom in manifest {
          RepeatedCustom(Values(lines[..k]), Values(lines));
          return Err(DuplicateCustomId);
        }
        LoadOne(Values(lines[..k]), m, manifest);
        manifest := manifest[m.custom := m.ids];
      } else {
        assert Values(lines[..k + 1]) == Values(lines[..k]);
      }
    }
    assert lines[..|lines|] == lines;
    ManifestEmpty(Values(lines));
    if manifest == map[] {
      return Err(EmptyManifest);
    }
    return Ok(manifest);
  }

  // ---------------------------------------------------------------- the rows of one answer

  predicate HasVector(rows: seq<Row>, i: int) {
    exists k :: 0 <= k < |rows| && rows[k].Row? && rows[k].index == i && rows[k].embedding.Some?
  }

  // One row with an embedding for every place, and no other row.
  predicate Complete(rows: seq<Row>, n: nat) {
    && |rows| == n && NoIndex !in rows
    && forall i :: 0 <= i < n ==> HasVector(rows, i)
  }

  // The embedding at place i.
  function VectorAt(rows: seq<Row>, i: int): Vector
    requires HasVector(rows, i)
  {
    if rows[0].Row? && rows[0].index == i && rows[0].embedding.Some? then rows[0].embedding.value
    else
      assert HasVector(rows[1..], i) by {
        var k :| 0 <= k < |rows| && rows[k].Row? && rows[k].index == i && rows[k].embedding.Some?;
        assert rows[1..][k - 1] == rows[k];
      }
      VectorAt(rows[1..], i)
  }

  function Joined(ids: seq<string>, rows: seq<Row>): seq<Emitted>
    requires Complete(rows, |ids|)
  {
    seq(|ids|, i requires 0 <= i < |ids| => Emitted(ids[i], VectorAt(rows, i)))
  }

  // sorted(data, key=_embedding_index)
  function InsertRow(rows: seq<Row>, row: Row): (r: seq<Row>)
    requires row.Row? && NoIndex !in rows
    ensures |r| == |rows| + 1 && forall x :: x in r <==> x in rows || x == row
  {
    if rows == [] || rows[|rows| - 1].index <= row.index then rows + [row]
    else
      var front, last := rows[..|rows| - 1], rows[|rows| - 1];
      assert rows == front + [last];
      InsertRow(front, row) + [last]
  }

  function SortedRows(rows: seq<Row>): (r: seq<Row>)
    requires NoIndex !in rows
    ensures |r| == |rows| && forall x :: x in r <==> x in rows
  {
    if rows == [] then []
    else
      var front, last := rows[..|rows| - 1], rows[|rows| - 1];
      assert rows == front + [last];
      InsertRow(SortedRows(front), last)
  }

  predicate Ascending(rows: seq<Row>)
    requires NoIndex !in rows
  {
    forall i, j :: 0 <= i < j < |rows| ==> rows[i].index <= rows[j].index
  }

  lemma {:induction false} InsertRowAscends(rows: seq<Row>, row: Row)
    requires row.Row? && NoIndex !in rows && Ascending(rows)
    ensures Ascending(InsertRow(rows, row))
  {
    if rows != [] && row.index < rows[|rows| - 1].index {
      var front, last := rows[..|rows| - 1], rows[|rows| - 1];
      assert rows == front + [last];
      InsertRowAscends(front, row);
      forall x | x in InsertRow(front, row) ensures x.index <= last.index {
        assert x in front || x == row;
      }
    }
  }

  lemma {:induction false} SortedRowsAscend(rows: seq<Row>)
    requires NoIndex !in rows
    ensures Ascending(SortedRows(rows))
  {
    if rows != [] {
      SortedRowsAscend(rows[..|rows| - 1]);
      InsertRowAscends(SortedRows(rows[..|rows| - 1]), rows[|rows| - 1]);
    }
  }

  // Where every index is covered, place i or a later one holds index i.
  lemma {:induction false} NotBefore(rows: seq<Row>, i: nat, p: nat)
    requires NoIndex !in rows && Ascending(rows) && p < |rows| && rows[p].index == i
    requires forall k :: 0 <= k < i ==> HasVector(rows, k)
    ensures i <= p
  {
    if i > 0 {
      assert HasVector(rows, i - 1);
      var q :| 0 <= q < |rows| && rows[q].index == i - 1;
      NotBefore(rows, i - 1, q);
    }
  }

  lemma {:induction false} NotAfter(rows: seq<Row>, n: nat, i: nat, p: nat)
    requires NoIndex !in rows && Ascending(rows) && p < |rows| && rows[p].index == i < n && |rows| == n
    requires forall k :: 0 <= k < n ==> HasVector(rows, k)
    ensures p <= i
    decreases n - i
  {
    if i + 1 < n {
      assert HasVector(rows, i + 1);
      var q :| 0 <= q < |rows| && rows[q].index == i + 1;
      NotAfter(rows, n, i + 1, q);
    }
  }

  lemma SortedPlace(rows: seq<Row>, n: nat, i: nat)
    requires Complete(rows, n) && i < n
    ensures var s := SortedRows(rows); s[i].Row? && s[i].index == i && s[i].embedding.Some?
  {
    var s := SortedRows(rows);
    SortedRowsAscend(rows);
    forall k | 0 <= k < n ensures HasVector(s, k) {
      assert HasVector(rows, k);
      var q :| 0 <= q < |rows| && rows[q].Row? && rows[q].index == k && rows[q].embedding.Some?;
      assert rows[q] in s;
    }
    assert HasVector(s, i);
    var p :| 0 <= p < |s| && s[p].Row? && s[p].index == i && s[p].embedding.Some?;
    NotBefore(s, i, p);
    NotAfter(s, n, i, p);
  }

  lemma {:induction false} VectorIsOfRow(rows: seq<Row>, i: int)
    requires HasVector(rows, i)
    ensures Row(i, Some(VectorAt(rows, i))) in rows
  {
    if !(rows[0].Row? && rows[0].index == i && rows[0].embedding.Some?) {
      var k :| 0 <= k < |rows| && rows[k].Row? && rows[k].index == i && rows[k].embedding.Some?;
      assert rows[1..][k - 1] == rows[k];
      VectorIsOfRow(rows[1..], i);
    }
  }

  // Rows whose sorted indices are 0, 1, 2, ... with embeddings are complete, and sorting finds each place.
  lemma SortedIsComplete(rows: seq<Row>)
    requires NoIndex !in rows
    requires forall i :: 0 <= i < |rows| ==> SortedRows(rows)[i].Row? && SortedRows(rows)[i].index == i && SortedRows(rows)[i].embedding.Some?
    ensures Complete(rows, |rows|)
    ensures forall i :: 0 <= i < |rows| ==> HasVector(rows, i) && SortedRows(rows)[i].embedding == Some(VectorAt(rows, i))
  {
    var s := SortedRows(rows);
    forall i | 0 <= i < |rows| ensures HasVector(rows, i) && s[i].embedding == Some(VectorAt(rows, i)) {
      assert s[i] in s && s[i] in rows;
      VectorIsOfRow(rows, i);
      assert Row(i, Some(VectorAt(rows, i))) in s;
    }
  }

  method JoinRows(ids: seq<string>, rows: seq<Row>) returns (r: Result<seq<Emitted>, Error>)
    ensures r.Ok? <==> Complete(rows, |ids|)
    ensures r.Ok? ==> r.value == Joined(ids, rows)
  {
    if NoIndex in rows {
      return Err(BadIndex);
    }
    var ordered := SortedRows(rows);
    if |ordered| != |ids| {
      return Err(WrongCount);
    }
    var emitted: seq<Emitted> := [];
    for i := 0 to |ids|
      invariant |emitted| == i
      invariant forall k :: 0 <= k < i ==> ordered[k].Row? && ordered[k].index == k && ordered[k].embedding == Some(emitted[k].embedding) && emitted[k].id == ids[k]
    {
      if ordered[i].index != i {
        if Complete(rows, |ids|) {
          SortedPlace(rows, |ids|, i);
        }
        return Err(MissingIndex);
      }
      if ordered[i].embedding == None {
        if Complete(rows, |ids|) {
          SortedPlace(rows, |ids|, i);
        }
        return Err(BadEmbedding);
      }
      emitted := emitted + [Emitted(ids[i], ordered[i].embedding.value)];
    }
    SortedIsComplete(rows);
    return Ok(emitted);
  }

  // ---------------------------------------------------------------- resolve_batch_output

  // The request succeeded, with one embedding for each of its items.
  predicate AnswerOk(a: Answer, manifest: map<CustomId, seq<string>>) {
    a.custom in manifest && a.outcome.Data? && Complete(a.outcome.rows, |manifest[a.custom]|)
  }

  predicate DistinctAnswers(answers: seq<Answer>) {
    forall i, j :: 0 <= i < j < |answers| ==> answers[i].custom != answers[j].custom
  }

  function Answered(answers: seq<Answer>): set<CustomId> {
    set a | a in answers :: a.custom
  }

  predicate AllOk(answers: seq<Answer>, manifest: map<CustomId, seq<string>>) {
    DistinctAnswers(answers) && forall k :: 0 <= k < |answers| ==> AnswerOk(answers[k], manifest)
  }

  // Every request of the manifest has exactly one good answer, and there is no other answer.
  predicate Matched(lines: seq<OutputLine>, manifest: map<CustomId, seq<string>>) {
    Malformed !in lines && AllOk(Values(lines), manifest) && Answered(Values(lines)) == manifest.Keys
  }

  function Output(answers: seq<Answer>, manifest: map<CustomId, seq<string>>): seq<Emitted>
    requires forall k :: 0 <= k < |answers| ==> AnswerOk(answers[k], manifest)
  {
    if answers == [] then []
    else
      var last := answers[|answers| - 1];
      assert AnswerOk(last, manifest);
      Output(answers[..|answers| - 1], manifest) + Joined(manifest[last.custom], last.outcome.rows)
  }

  function TokensOf(answers: seq<Answer>): int {
    if answers == [] then 0
    else
      var last := answers[|answers| - 1].outcome;
      TokensOf(answers[..|answers| - 1]) + if last.Data? && last.tokens.Some? then last.tokens.value else 0
  }

  // The tokens of one answer, and those of two lists of answers together.
  lemma {:induction false} TokensAddUp(a: seq<Answer>, b: seq<Answer>, answer: Answer)
    ensures TokensOf(a + b) == TokensOf(a) + TokensOf(b)
    ensures TokensOf([answer]) == match answer.outcome case Data(_, Some(tokens)) => tokens case _ => 0
  {
    if b == [] {
      assert a + b == a;
    } else {
      var front := b[..|b| - 1];
      TokensAddUp(a, front, answer);
      assert (a + b)[..|a + b| - 1] == a + front;
    }
  }

  datatype Resolved = Resolved(emitted: seq<Emitted>, requests: nat, tokens: int)

  ghost predicate Done(answers: seq<Answer>, all: map<CustomId, seq<string>>, manifest: map<CustomId, seq<string>>, r: Resolved) {
    && AllOk(answers, all) && manifest == (map c | c in all && c !in Answered(answers) :: all[c])
    && r == Resolved(Output(answers, all), |answers|, TokensOf(answers))
  }

  lemma OneMoreAnswer(answers: seq<Answer>, a: Answer, all: map<CustomId, seq<string>>, manifest: map<CustomId, seq<string>>, r: Resolved)
    requires Done(answers, all, manifest, r) && a.custom in manifest && AnswerOk(a, all)
    ensures var tokens := if a.outcome.tokens.Some? then a.outcome.tokens.value else 0;
      Done(answers + [a], all, map c | c in manifest && c != a.custom :: manifest[c],
           Resolved(r.emitted + Joined(all[a.custom], a.outcome.rows), r.requests + 1, r.tokens + tokens))
  {
    var longer := answers + [a];
    assert longer[..|answers|] == answers;
    forall i | 0 <= i < |answers| ensures answers[i].custom != a.custom {
      assert answers[i] in answers;
    }
    assert Answered(longer) == Answered(answers) + {a.custom} by {
      forall c | c in Answered(answers) ensures c in Answered(longer) {
        var b :| b in answers && b.custom == c;
        assert b in longer;
      }
      assert a in longer;
    }
  }

  // A bad answer is among all answers.
  lemma BadAnswer(answers: seq<Answer>, some: seq<Answer>, all: map<CustomId, seq<string>>, manifest: map<CustomId, seq<string>>, r: Resolved)
    requires |some| < |answers| && answers[..|some|] == some && Done(some, all, manifest, r)
    requires answers[|some|].custom !in manifest || !AnswerOk(answers[|some|], all)
    ensures !AllOk(answers, all)
  {
    var a := answers[|some|];
    if a.custom in all && a.custom !in manifest {
      var b :| b in some && b.custom == a.custom;
      var i :| 0 <= i < |some| && some[i] == b;
      assert answers[i] == b;
    }
  }

  lemma AllAnswered(answers: seq<Answer>, all: map<CustomId, seq<string>>, manifest: map<CustomId, seq<string>>, r: Resolved)
    requires Done(answers, all, manifest, r) && manifest == map[]
    ensures Answered(answers) == all.Keys
  {
    forall c | c in all ensures c in Answered(answers) {
      assert c !in manifest;
    }
    forall c | c in Answered(answers) ensures c in all {
      var a :| a in answers && a.custom == c;
      var i :| 0 <= i < |answers| && answers[i] == a;
      assert AnswerOk(answers[i], all);
    }
  }

  lemma SomeUnanswered(answers: seq<Answer>, all: map<CustomId, seq<string>>, manifest: map<CustomId, seq<string>>, r: Resolved)
    requires Done(answers, all, manifest, r) && manifest != map[]
    ensures Answered(answers) != all.Keys
  {
    var c :| c in manifest;
    assert c in all && c !in Answered(answers);
  }

  // One line of the output file: its request is taken out of the manifest and its embeddings are written.
  method ResolveAnswer(a: Answer, manifest: map<CustomId, seq<string>>, sofar: Resolved, ghost answers: seq<Answer>, ghost all: map<CustomId, seq<string>>)
    returns (error: Option<Error>, remaining: map<CustomId, seq<string>>, r: Resolved)
    requires Done(answers, all, manifest, sofar)
    ensures error == None ==> Done(answers + [a], all, remaining, r)
    ensures error.Some? ==> a.custom !in manifest || !AnswerOk(a, all)
  {
    remaining, r := manifest, sofar;
    if a.custom !in manifest {
      return Some(UnknownCustomId), remaining, r;
    }
    var ids := manifest[a.custom];
    remaining := map c | c in manifest && c != a.custom :: manifest[c];
    if !a.outcome.Data? {
      return Some(RequestFailed), remaining, r;
    }
    var joined := JoinRows(ids, a.outcome.rows);
    if joined.Err? {
      return Some(joined.error), remaining, r;
    }
    var tokens := if a.outcome.tokens.Some? then a.outcome.tokens.value else 0;
    OneMoreAnswer(answers, a, all, manifest, sofar);
    return None, remaining, Resolved(r.emitted + joined.value, r.requests + 1, r.tokens + tokens);
  }

  method ResolveBatchOutput(lines: seq<OutputLine>, manifestLines: seq<ManifestLine>) returns (r: Result<Resolved, Error>)
    ensures r.Ok? <==> ManifestOk(manifestLines) && Matched(lines, ManifestOf(Values(manifestLines)))
    ensures r.Ok? ==> r.value == Resolved(Output(Values(lines), ManifestOf(Values(manifestLines))), |Values(lines)|, TokensOf(Values(lines)))
  {
    var loaded := LoadManifest(manifestLines);
    if loaded.Err? {
      return Err(loaded.error);
    }
    var manifest := loaded.value;
    ghost var all := manifest;
    var resolved := Resolved([], 0, 0);
    for k := 0 to |lines|
      invariant Malformed !in lines[..k] && Done(Values(lines[..k]), all, manifest, resolved)
    {
      assert lines[..k + 1] == lines[..k] + [lines[k]];
      ValuesSnoc(lines[..k], lines[k]);
      if lines[k].Malformed? {
        return Err(InvalidLine);
      }
      if lines[k].Entry? {
        NextValue(lines, k);
        ghost var before := manifest;
        ghost var sofar := resolved;
        var error;
        error, manifest, resolved := ResolveAnswer(lines[k].value, manifest, resolved, Values(lines[..k]), all);
        if error.Some? {
          BadAnswer(Values(lines), Values(lines[..k]), all, before, sofar);
          return Err(error.value);
        }
      } else {
        assert Values(lines[..k + 1]) == Values(lines[..k]);
      }
    }
    assert lines[..|lines|] == lines;
    if manifest != map[] {
      SomeUnanswered(Values(lines), all, manifest, resolved);
      return Err(MissingRequests);
    }
    AllAnswered(Values(lines), all, manifest, resolved);
    return Ok(resolved);
  }
}
