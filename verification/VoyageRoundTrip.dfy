/** Preparing a batch, having every request answered in some order, and resolving it is the identity on items. */
module VoyageRoundTrip {
  import opened Common
  import opened VoyageBatch
  import opened VoyageJoin

  // ---------------------------------------------------------------- members of flattened lists

  lemma {:induction false} FlattenMember<T>(parts: seq<seq<T>>, x: T)
    ensures x in Flatten(parts) <==> exists k :: 0 <= k < |parts| && x in parts[k]
  {
    if parts != [] {
      var front, last := parts[..|parts| - 1], parts[|parts| - 1];
      FlattenMember(front, x);
      if k :| 0 <= k < |front| && x in front[k] {
        assert x in parts[k];
      }
      if k :| 0 <= k < |parts| && x in parts[k] {
        assert k < |front| ==> x in front[k];
      }
    }
  }

  // No id occurs twice.
  predicate NoRepeats(emitted: seq<Emitted>) {
    forall i, j :: 0 <= i < j < |emitted| ==> emitted[i].id != emitted[j].id
  }

  predicate NoCommonId(a: seq<Emitted>, b: seq<Emitted>) {
    forall x, y :: x in a && y in b ==> x.id != y.id
  }

  lemma {:induction false} ApartPartsDoNotRepeat(parts: seq<seq<Emitted>>)
    requires forall k :: 0 <= k < |parts| ==> NoRepeats(parts[k])
    requires forall j, k :: 0 <= j < k < |parts| ==> NoCommonId(parts[j], parts[k])
    ensures NoRepeats(Flatten(parts))
  {
    if parts != [] {
      var front, last := parts[..|parts| - 1], parts[|parts| - 1];
      ApartPartsDoNotRepeat(front);
      forall x: Emitted, y: Emitted | x in Flatten(front) && y in last ensures x.id != y.id {
        FlattenMember(front, x);
        var k :| 0 <= k < |front| && x in front[k];
        assert NoCommonId(parts[k], parts[|parts| - 1]);
      }
      AppendDoesNotRepeat(Flatten(front), last);
    }
  }

  lemma AppendDoesNotRepeat(a: seq<Emitted>, b: seq<Emitted>)
    requires NoRepeats(a) && NoRepeats(b) && NoCommonId(a, b)
    ensures NoRepeats(a + b)
  {
    forall i, j | 0 <= i < j < |a + b| ensures (a + b)[i].id != (a + b)[j].id {
      if i < |a| && j >= |a| {
        assert a[i] in a && b[j - |a|] in b;
      }
    }
  }

  lemma {:induction false} GroupsAreApart(groups: seq<seq<Item>>, j: nat, k: nat)
    requires UniqueIds(Flatten(groups)) && j <= k < |groups|
    ensures UniqueIds(groups[k])
    ensures j < k ==> forall x, y :: x in groups[j] && y in groups[k] ==> x.id != y.id
  {
    var front, last := groups[..|groups| - 1], groups[|groups| - 1];
    var all := Flatten(groups);
    assert all == Flatten(front) + last;
    assert UniqueIds(Flatten(front)) && UniqueIds(last) by {
      forall a, b | 0 <= a < b < |last| ensures last[a].id != last[b].id {
        assert all[|Flatten(front)| + a].id != all[|Flatten(front)| + b].id;
      }
      forall a, b | 0 <= a < b < |Flatten(front)| ensures Flatten(front)[a].id != Flatten(front)[b].id {
        assert all[a].id != all[b].id;
      }
    }
    if k < |front| {
      GroupsAreApart(front, j, k);
    } else if j < k {
      forall x: Item, y: Item | x in groups[j] && y in groups[k] ensures x.id != y.id {
        assert x in front[j];
        FlattenMember(front, x);
        var a :| 0 <= a < |Flatten(front)| && Flatten(front)[a] == x;
        var b :| 0 <= b < |last| && last[b] == y;
        assert all[a] == x && all[|Flatten(front)| + b] == y;
      }
    }
  }

  // ---------------------------------------------------------------- any success

  function EmittedIds(emitted: seq<Emitted>): seq<string> {
    seq(|emitted|, i requires 0 <= i < |emitted| => emitted[i].id)
  }

  function AnsweredIds(answers: seq<Answer>, manifest: map<CustomId, seq<string>>): seq<seq<string>>
    requires forall k :: 0 <= k < |answers| ==> AnswerOk(answers[k], manifest)
  {
    seq(|answers|, k requires 0 <= k < |answers| && AnswerOk(answers[k], manifest) => manifest[answers[k].custom])
  }

  lemma {:induction false} OutputIds(answers: seq<Answer>, manifest: map<CustomId, seq<string>>)
    requires forall k :: 0 <= k < |answers| ==> AnswerOk(answers[k], manifest)
    ensures EmittedIds(Output(answers, manifest)) == Flatten(AnsweredIds(answers, manifest))
  {
    if answers != [] {
      var front, last := answers[..|answers| - 1], answers[|answers| - 1];
      assert AnswerOk(answers[|answers| - 1], manifest);
      OutputIds(front, manifest);
      var joined := Joined(manifest[last.custom], last.outcome.rows);
      assert EmittedIds(joined) == manifest[last.custom];
      assert EmittedIds(Output(front, manifest) + joined) == EmittedIds(Output(front, manifest)) + EmittedIds(joined);
      assert AnsweredIds(answers, manifest)[..|answers| - 1] == AnsweredIds(front, manifest);
    }
  }

  // Whenever resolving succeeds, the answers name every request of the manifest once, and the ids written are
  // those of the requests, in the order of the answers.
  lemma SuccessEmitsTheManifest(lines: seq<OutputLine>, manifest: map<CustomId, seq<string>>)
    requires Matched(lines, manifest)
    ensures var answers := Values(lines);
      && EmittedIds(Output(answers, manifest)) == Flatten(AnsweredIds(answers, manifest))
      && |answers| == |manifest|
      && forall c, id :: c in manifest && id in manifest[c] ==> id in EmittedIds(Output(answers, manifest))
  {
    var answers := Values(lines);
    OutputIds(answers, manifest);
    CountAnswered(answers);
    assert |manifest| == |manifest.Keys|;
    forall c, id | c in manifest && id in manifest[c] ensures id in Flatten(AnsweredIds(answers, manifest)) {
      assert c in Answered(answers);
      var a :| a in answers && a.custom == c;
      var k :| 0 <= k < |answers| && answers[k] == a;
      assert id in AnsweredIds(answers, manifest)[k];
      FlattenMember(AnsweredIds(answers, manifest), id);
    }
  }

  lemma {:induction false} CountAnswered(answers: seq<Answer>)
    requires DistinctAnswers(answers)
    ensures |Answered(answers)| == |answers|
  {
    if answers != [] {
      var front, last := answers[..|answers| - 1], answers[|answers| - 1];
      assert answers == front + [last];
      CountAnswered(front);
      AnsweredSnoc(front, last);
    }
  }

  lemma AnsweredSnoc(answers: seq<Answer>, a: Answer)
    ensures Answered(answers + [a]) == Answered(answers) + {a.custom}
    ensures (forall k :: 0 <= k < |answers| ==> answers[k].custom != a.custom) ==> a.custom !in Answered(answers)
  {
    forall c | c in Answered(answers) ensures c in Answered(answers + [a]) {
      var b :| b in answers && b.custom == c;
      assert b in answers + [a];
    }
    assert a in answers + [a];
  }

  // ---------------------------------------------------------------- correct answers

  function Embedded(items: seq<Item>, embed: string -> Vector): seq<Emitted> {
    seq(|items|, i requires 0 <= i < |items| => Emitted(items[i].id, embed(items[i].text)))
  }

  // The provider answered this request: a row for each input, in any order, with the embedding of that input.
  predicate AnswersRequest(a: Answer, request: Request, embed: string -> Vector) {
    && a.custom == request.custom && a.outcome.Data? && Complete(a.outcome.rows, |request.input|)
    && forall row :: row in a.outcome.rows ==> 0 <= row.index < |request.input| && row.embedding == Some(embed(request.input[row.index]))
  }

  // Every request of the file is answered correctly once; the order does not matter.
  predicate AnswersAll(answers: seq<Answer>, requests: seq<Request>, embed: string -> Vector) {
    && DistinctAnswers(answers)
    && (forall k :: 0 <= k < |answers| ==> exists n :: 0 <= n < |requests| && AnswersRequest(answers[k], requests[n], embed))
    && (forall n :: 0 <= n < |requests| ==> requests[n].custom in Answered(answers))
  }

  // The answer of a group holds the embeddings of the texts of its items.
  predicate AnswersGroup(a: Answer, groups: seq<seq<Item>>, embed: string -> Vector) {
    && a.custom.Numbered? && a.custom.n < |groups| && a.outcome.Data?
    && Complete(a.outcome.rows, |groups[a.custom.n]|)
    && forall row :: row in a.outcome.rows ==>
         0 <= row.index < |groups[a.custom.n]| && row.embedding == Some(embed(groups[a.custom.n][row.index].text))
  }

  predicate AnswersGroups(answers: seq<Answer>, groups: seq<seq<Item>>, embed: string -> Vector) {
    && DistinctAnswers(answers)
    && (forall k :: 0 <= k < |answers| ==> AnswersGroup(answers[k], groups, embed))
    && (forall n :: 0 <= n < |groups| ==> Numbered(n) in Answered(answers))
  }

  lemma RequestIsGroup(a: Answer, groups: seq<seq<Item>>, n: nat, embed: string -> Vector)
    requires n < |groups| && AnswersRequest(a, RequestsFor(groups)[n], embed)
    ensures AnswersGroup(a, groups, embed)
  {
  }

  lemma RequestsAreGroups(answers: seq<Answer>, groups: seq<seq<Item>>, embed: string -> Vector)
    requires AnswersAll(answers, RequestsFor(groups), embed)
    ensures AnswersGroups(answers, groups, embed)
  {
    forall k | 0 <= k < |answers| ensures AnswersGroup(answers[k], groups, embed) {
      var n :| 0 <= n < |groups| && AnswersRequest(answers[k], RequestsFor(groups)[n], embed);
      RequestIsGroup(answers[k], groups, n, embed);
    }
    forall n | 0 <= n < |groups| ensures Numbered(n) in Answered(answers) {
      assert RequestsFor(groups)[n].custom in Answered(answers);
    }
  }

  lemma {:induction false} ManifestEntry(groups: seq<seq<Item>>, n: nat)
    requires n < |groups|
    ensures Numbered(n) in ManifestOf(ManifestFor(groups)) && ManifestOf(ManifestFor(groups))[Numbered(n)] == Ids(groups[n])
  {
    var front, last := groups[..|groups| - 1], groups[|groups| - 1];
    assert ManifestFor(groups) == ManifestFor(front) + [MappingFor(|front|, last)];
    ManifestSnoc(ManifestFor(front), MappingFor(|front|, last));
    if n < |front| {
      ManifestEntry(front, n);
    }
  }

  lemma ManifestKeys(groups: seq<seq<Item>>, c: CustomId)
    ensures c in ManifestOf(ManifestFor(groups)) <==> c.Numbered? && c.n < |groups|
  {
    if c in ManifestOf(ManifestFor(groups)) {
      var m :| m in ManifestFor(groups) && m.custom == c;
    }
    if c.Numbered? && c.n < |groups| {
      ManifestEntry(groups, c.n);
    }
  }

  lemma CorrectAnswerJoins(a: Answer, groups: seq<seq<Item>>, embed: string -> Vector)
    requires AnswersGroup(a, groups, embed)
    ensures var manifest := ManifestOf(ManifestFor(groups));
      AnswerOk(a, manifest) && Joined(manifest[a.custom], a.outcome.rows) == Embedded(groups[a.custom.n], embed)
  {
    ManifestEntry(groups, a.custom.n);
    var group, rows := groups[a.custom.n], a.outcome.rows;
    forall i | 0 <= i < |group| ensures HasVector(rows, i) && VectorAt(rows, i) == embed(group[i].text) {
      VectorIsOfRow(rows, i);
    }
  }

  function EmbeddedAnswers(answers: seq<Answer>, groups: seq<seq<Item>>, embed: string -> Vector): seq<seq<Emitted>>
    requires forall k :: 0 <= k < |answers| ==> AnswersGroup(answers[k], groups, embed)
  {
    seq(|answers|, k requires 0 <= k < |answers| && AnswersGroup(answers[k], groups, embed) => Embedded(groups[answers[k].custom.n], embed))
  }

  lemma {:induction false} CorrectOutput(answers: seq<Answer>, groups: seq<seq<Item>>, embed: string -> Vector)
    requires forall k :: 0 <= k < |answers| ==> AnswersGroup(answers[k], groups, embed)
    ensures var manifest := ManifestOf(ManifestFor(groups));
      && (forall k :: 0 <= k < |answers| ==> AnswerOk(answers[k], manifest))
      && Output(answers, manifest) == Flatten(EmbeddedAnswers(answers, groups, embed))
  {
    var manifest := ManifestOf(ManifestFor(groups));
    forall k | 0 <= k < |answers| ensures AnswerOk(answers[k], manifest) {
      CorrectAnswerJoins(answers[k], groups, embed);
    }
    if answers != [] {
      var front := answers[..|answers| - 1];
      CorrectOutput(front, groups, embed);
      CorrectAnswerJoins(answers[|answers| - 1], groups, embed);
      var parts := EmbeddedAnswers(answers, groups, embed);
      assert parts[..|parts| - 1] == EmbeddedAnswers(front, groups, embed);
    }
  }

  lemma EmbeddedApart(a: seq<Item>, b: seq<Item>, embed: string -> Vector)
    requires forall x: Item, y: Item :: x in a && y in b ==> x.id != y.id
    ensures NoCommonId(Embedded(a, embed), Embedded(b, embed))
  {
    forall x: Emitted, y: Emitted | x in Embedded(a, embed) && y in Embedded(b, embed) ensures x.id != y.id {
      var i :| 0 <= i < |a| && Embedded(a, embed)[i] == x;
      var j :| 0 <= j < |b| && Embedded(b, embed)[j] == y;
      assert a[i] in a && b[j] in b;
    }
  }

  lemma GroupsStayApart(groups: seq<seq<Item>>, embed: string -> Vector, m: nat, n: nat)
    requires UniqueIds(Flatten(groups)) && m < |groups| && n < |groups|
    ensures NoRepeats(Embedded(groups[m], embed))
    ensures m != n ==> NoCommonId(Embedded(groups[m], embed), Embedded(groups[n], embed))
  {
    GroupsAreApart(groups, m, m);
    if m < n {
      GroupsAreApart(groups, m, n);
      EmbeddedApart(groups[m], groups[n], embed);
    } else if n < m {
      GroupsAreApart(groups, n, m);
      EmbeddedApart(groups[m], groups[n], embed);
    }
  }

  lemma OutputMembers(answers: seq<Answer>, groups: seq<seq<Item>>, embed: string -> Vector, e: Emitted)
    requires AnswersGroups(answers, groups, embed)
    ensures e in Flatten(EmbeddedAnswers(answers, groups, embed)) <==>
      exists item :: item in Flatten(groups) && e == Emitted(item.id, embed(item.text))
  {
    var parts := EmbeddedAnswers(answers, groups, embed);
    FlattenMember(parts, e);
    if e in Flatten(parts) {
      var k :| 0 <= k < |parts| && e in parts[k];
      var i :| 0 <= i < |parts[k]| && parts[k][i] == e;
      var item := groups[answers[k].custom.n][i];
      assert item in groups[answers[k].custom.n];
      FlattenMember(groups, item);
    }
    if item :| item in Flatten(groups) && e == Emitted(item.id, embed(item.text)) {
      FlattenMember(groups, item);
      var n :| 0 <= n < |groups| && item in groups[n];
      assert Numbered(n) in Answered(answers);
      var a :| a in answers && a.custom == Numbered(n);
      var k :| 0 <= k < |answers| && answers[k] == a;
      var i :| 0 <= i < |groups[n]| && groups[n][i] == item;
      assert parts[k][i] == e;
    }
  }

  lemma GroupRoundTrip(items: seq<Item>, size: nat, answers: seq<Answer>, embed: string -> Vector)
    requires UniqueIds(items) && size >= 1 && AnswersGroups(answers, Groups(items, size), embed)
    ensures var manifest := ManifestOf(ManifestFor(Groups(items, size)));
      AllOk(answers, manifest) && Answered(answers) == manifest.Keys && EmbedsEach(Output(answers, manifest), items, embed)
  {
    var groups := Groups(items, size);
    var manifest := ManifestOf(ManifestFor(groups));
    GroupsPartition(items, size);
    CorrectOutput(answers, groups, embed);
    forall c ensures c in manifest <==> c in Answered(answers) {
      ManifestKeys(groups, c);
    }
    var parts := EmbeddedAnswers(answers, groups, embed);
    forall j, k | 0 <= j < |parts| && 0 <= k < |parts|
      ensures NoRepeats(parts[j]) && (j != k ==> NoCommonId(parts[j], parts[k]))
    {
      GroupsStayApart(groups, embed, answers[j].custom.n, answers[k].custom.n);
    }
    ApartPartsDoNotRepeat(parts);
    forall e ensures e in Output(answers, manifest) <==> exists item :: item in items && e == Emitted(item.id, embed(item.text)) {
      OutputMembers(answers, groups, embed, e);
    }
  }

  // Each item comes out with the embedding of its own text: nothing else, and none of them twice.
  ghost predicate EmbedsEach(emitted: seq<Emitted>, items: seq<Item>, embed: string -> Vector) {
    && NoRepeats(emitted)
    && forall e :: e in emitted <==> exists item :: item in items && e == Emitted(item.id, embed(item.text))
  }

  // Items with unique ids, written to the files in groups of any size; the provider embeds the inputs of the requests
  // and answers in any order.
  lemma RoundTrip(items: seq<Item>, size: nat, files: Prepared, answers: seq<Answer>, embed: string -> Vector)
    requires UniqueIds(items) && size >= 1
    requires files == Prepared(RequestsFor(Groups(items, size)), ManifestFor(Groups(items, size)), |items|)
    requires AnswersAll(answers, files.requests, embed)
    ensures var manifest := ManifestOf(files.manifest);
      AllOk(answers, manifest) && Answered(answers) == manifest.Keys && EmbedsEach(Output(answers, manifest), items, embed)
  {
    RequestsAreGroups(answers, Groups(items, size), embed);
    GroupRoundTrip(items, size, answers, embed);
  }

  // ---------------------------------------------------------------- a whole batch

  // A provider that embeds each input of each request of a file, whose custom ids differ, and answers in some order.
  ghost predicate Faithful(provider: seq<Request> -> seq<Answer>, embed: string -> Vector) {
    forall requests :: DistinctRequests(requests) ==> AnswersAll(provider(requests), requests, embed)
  }

  predicate DistinctRequests(requests: seq<Request>) {
    forall i, j :: 0 <= i < j < |requests| ==> requests[i].custom != requests[j].custom
  }

  function Entries<T>(values: seq<T>): seq<Line<T>> {
    seq(|values|, k requires 0 <= k < |values| => Entry(values[k]))
  }

  lemma {:induction false} EntriesHold<T>(values: seq<T>)
    ensures Values(Entries(values)) == values && Malformed !in Entries(values)
  {
    if values != [] {
      EntriesHold(values[..|values| - 1]);
      assert Entries(values)[..|values| - 1] == Entries(values[..|values| - 1]);
    }
  }

  lemma MappingIsValid(p: Prepared, items: seq<Item>, size: nat, k: nat)
    requires k < |p.requests| && k < |p.manifest| && Corresponds(p, items, size, k)
    ensures ValidIds(p.manifest[k].ids)
  {
    var ids := p.manifest[k].ids;
    forall i | 0 <= i < |ids| ensures ids[i] != "" {
      assert HasText(items, ids[i], p.requests[k].input[i]);
    }
  }

  lemma ManifestIsOk(p: Prepared, items: seq<Item>, size: nat)
    requires Describes(p, items, size) && p.manifest != []
    ensures ManifestOk(Entries(p.manifest)) && DistinctRequests(p.requests)
  {
    EntriesHold(p.manifest);
    forall k | 0 <= k < |p.manifest|
      ensures ValidIds(p.manifest[k].ids) && p.manifest[k].custom == p.requests[k].custom == Numbered(k) {
      assert Corresponds(p, items, size, k);
      MappingIsValid(p, items, size, k);
    }
  }

  // prepare_batch_input, a provider that answers the request file, and resolve_batch_output
  method RunBatch(lines: seq<SourceLine>, size: nat, provider: seq<Request> -> seq<Answer>, ghost embed: string -> Vector)
    returns (r: Result<Resolved, Error>)
    requires Faithful(provider, embed)
    ensures r.Ok? <==> Acceptable(lines, size)
    ensures r.Ok? ==> EmbedsEach(r.value.emitted, Values(lines), embed)
  {
    var files := PrepareBatchInput(lines, size);
    if files.Err? {
      return Err(files.error);
    }
    var answers := provider(files.value.requests);
    ManifestIsOk(files.value, Values(lines), size);
    EntriesHold(answers);
    EntriesHold(files.value.manifest);
    RoundTrip(Values(lines), size, files.value, answers, embed);
    r := ResolveBatchOutput(Entries(answers), Entries(files.value.manifest));
  }
}
