/**
  Embedding the chunks of many documents in shared pages (app/matter_embeddings.py): flush grouping, paging and
  the way back from a flat list of vectors to the chunks of each document.
 */
module MatterEmbeddings {
  import opened Common
  import opened VoyageBatch

  datatype Outcome = Embedded(chunks: nat) | Skipped(chunks: nat) | Failed

  datatype Error = GatewayError | CountMismatch

  // What preparing a document led to: its chunks, or an outcome already.
  datatype Preparation = Ready(chunks: seq<string>) | Settled(outcome: Outcome)

  type Gateway = seq<string> -> Result<seq<Vector>, Error>

  function MapEmbed(chunks: seq<string>, embed: string -> Vector): seq<Vector> {
    seq(|chunks|, k requires 0 <= k < |chunks| => embed(chunks[k]))
  }

  // The gateway returns the embedding of each text of a page, in order.
  ghost predicate Faithful(gateway: Gateway, embed: string -> Vector, maxInputs: nat) {
    forall page :: |page| <= maxInputs ==> gateway(page) == Ok(MapEmbed(page, embed))
  }

  // ---------------------------------------------------------------- positions of chunks

  datatype Position = Position(document: nat, chunk: string)

  function ChunksAt(document: nat, chunks: seq<string>): seq<Position> {
    seq(|chunks|, k requires 0 <= k < |chunks| => Position(document, chunks[k]))
  }

  // Every chunk of every document, document by document.
  function Positions(documents: seq<seq<string>>): seq<Position> {
    if documents == [] then []
    else
      var n := |documents| - 1;
      Positions(documents[..n]) + ChunksAt(n, documents[n])
  }

  // The places of one document among the positions.
  function PlacesOf(positions: seq<Position>, document: nat): seq<nat> {
    if positions == [] then []
    else
      var n := |positions| - 1;
      PlacesOf(positions[..n], document) + if positions[n].document == document then [n] else []
  }

  lemma PlacesSnoc(positions: seq<Position>, p: Position, document: nat)
    ensures PlacesOf(positions + [p], document) == PlacesOf(positions, document) + if p.document == document then [|positions|] else []
  {
    assert (positions + [p])[..|positions|] == positions;
  }

  // Positions of a document form one run.
  lemma {:induction false} PlacesAppend(positions: seq<Position>, document: nat, chunks: seq<string>, d: nat)
    ensures PlacesOf(positions + ChunksAt(document, chunks), d)
      == PlacesOf(positions, d) + if d == document then seq(|chunks|, k requires 0 <= k < |chunks| => |positions| + k) else []
  {
    if chunks == [] {
      assert positions + ChunksAt(document, chunks) == positions;
    } else {
      var front, last := chunks[..|chunks| - 1], chunks[|chunks| - 1];
      PlacesAppend(positions, document, front, d);
      var some := positions + ChunksAt(document, front);
      assert positions + ChunksAt(document, chunks) == some + [Position(document, last)];
      PlacesSnoc(some, Position(document, last), d);
    }
  }

  lemma {:induction false} PositionsInRange(documents: seq<seq<string>>, k: nat)
    requires k < |Positions(documents)|
    ensures Positions(documents)[k].document < |documents|
  {
    if documents != [] {
      var front := documents[..|documents| - 1];
      if k < |Positions(front)| {
        PositionsInRange(front, k);
      }
    }
  }

  predicate Hold(positions: seq<Position>, places: seq<nat>, chunks: seq<string>) {
    |places| == |chunks| && forall k :: 0 <= k < |places| ==> places[k] < |positions| && positions[places[k]].chunk == chunks[k]
  }

  lemma StillHold(positions: seq<Position>, more: seq<Position>, places: seq<nat>, chunks: seq<string>)
    requires Hold(positions, places, chunks)
    ensures Hold(positions + more, places, chunks)
  {
  }

  lemma LastHold(positions: seq<Position>, document: nat, chunks: seq<string>)
    ensures Hold(positions + ChunksAt(document, chunks), seq(|chunks|, k requires 0 <= k < |chunks| => |positions| + k), chunks)
  {
  }

  lemma OneMoreDocument(positions: seq<Position>, n: nat, chunks: seq<string>, d: nat, held: seq<string>)
    requires Hold(positions, PlacesOf(positions, d), held) && (d == n ==> held == [])
    ensures var longer := positions + ChunksAt(n, chunks);
      Hold(longer, PlacesOf(longer, d), if d == n then chunks else held)
  {
    PlacesAppend(positions, n, chunks, d);
    if d == n {
      LastHold(positions, n, chunks);
      assert PlacesOf(positions, d) == [];
    } else {
      StillHold(positions, ChunksAt(n, chunks), PlacesOf(positions, d), held);
      assert PlacesOf(positions + ChunksAt(n, chunks), d) == PlacesOf(positions, d);
    }
  }

  function ChunksHeld(documents: seq<seq<string>>, d: nat): seq<string> {
    if d < |documents| then documents[d] else []
  }

  // The places of document d hold its chunks, in order.
  lemma {:induction false} PlacesHoldChunks(documents: seq<seq<string>>, d: nat)
    ensures Hold(Positions(documents), PlacesOf(Positions(documents), d), ChunksHeld(documents, d))
  {
    if documents != [] {
      var n := |documents| - 1;
      PlacesHoldChunks(documents[..n], d);
      OneMoreDocument(Positions(documents[..n]), n, documents[n], d, ChunksHeld(documents[..n], d));
    }
  }

  // ---------------------------------------------------------------- _embed_prepared_documents

  // The vectors of a flat list that belong to one document.
  function VectorsOf(flat: seq<Vector>, positions: seq<Position>, document: nat): seq<Vector>
    requires |flat| == |positions|
  {
    if positions == [] then []
    else
      var n := |positions| - 1;
      VectorsOf(flat[..n], positions[..n], document) + if positions[n].document == document then [flat[n]] else []
  }

  lemma VectorsSnoc(flat: seq<Vector>, positions: seq<Position>, v: Vector, p: Position, document: nat)
    requires |flat| == |positions|
    ensures VectorsOf(flat + [v], positions + [p], document) == VectorsOf(flat, positions, document) + if p.document == document then [v] else []
  {
    assert (positions + [p])[..|positions|] == positions && (flat + [v])[..|flat|] == flat;
  }

  lemma {:induction false} VectorsAtPlaces(flat: seq<Vector>, positions: seq<Position>, document: nat)
    requires |flat| == |positions|
    ensures var vectors, places := VectorsOf(flat, positions, document), PlacesOf(positions, document);
      |vectors| == |places| && forall k :: 0 <= k < |places| ==> places[k] < |flat| && vectors[k] == flat[places[k]]
  {
    if positions != [] {
      VectorsAtPlaces(flat[..|flat| - 1], positions[..|positions| - 1], document);
    }
  }

  // The responses to the pages, one after the other.
  ghost predicate Answered(gateway: Gateway, positions: seq<Position>, flat: seq<Vector>, maxInputs: nat) {
    |flat| == |positions| && forall embed :: Faithful(gateway, embed, maxInputs) ==> FlatEmbedded(flat, positions, embed)
  }

  ghost predicate FlatEmbedded(flat: seq<Vector>, positions: seq<Position>, embed: string -> Vector) {
    |flat| == |positions| && forall k :: 0 <= k < |flat| ==> flat[k] == embed(positions[k].chunk)
  }

  function TextsOf(page: seq<Position>): seq<string> {
    seq(|page|, k requires 0 <= k < |page| => page[k].chunk)
  }

  lemma PageAnswered(gateway: Gateway, positions: seq<Position>, flat: seq<Vector>, page: seq<Position>, vectors: seq<Vector>, maxInputs: nat)
    requires Answered(gateway, positions, flat, maxInputs) && |page| == |vectors| && |page| <= maxInputs && gateway(TextsOf(page)) == Ok(vectors)
    ensures Answered(gateway, positions + page, flat + vectors, maxInputs)
  {
    forall embed | Faithful(gateway, embed, maxInputs) ensures FlatEmbedded(flat + vectors, positions + page, embed) {
      assert FlatEmbedded(flat, positions, embed);
      assert vectors == MapEmbed(TextsOf(page), embed);
    }
  }

  // for (document_index, _), vector in zip(page, response.embeddings): vectors_by_document[document_index].append(vector)
  method Distribute(byDocument: seq<seq<Vector>>, page: seq<Position>, vectors: seq<Vector>,
                    ghost positions: seq<Position>, ghost flat: seq<Vector>)
    returns (r: seq<seq<Vector>>)
    requires |page| == |vectors| && |flat| == |positions| && forall k :: 0 <= k < |page| ==> page[k].document < |byDocument|
    requires forall d :: 0 <= d < |byDocument| ==> byDocument[d] == VectorsOf(flat, positions, d)
    ensures |r| == |byDocument| && forall d :: 0 <= d < |r| ==> r[d] == VectorsOf(flat + vectors, positions + page, d)
  {
    r := byDocument;
    assert flat + [] == flat && positions + [] == positions;
    for i := 0 to |page|
      invariant |r| == |byDocument|
      invariant forall d :: 0 <= d < |r| ==> r[d] == VectorsOf(flat + vectors[..i], positions + page[..i], d)
    {
      assert flat + vectors[..i + 1] == (flat + vectors[..i]) + [vectors[i]];
      assert positions + page[..i + 1] == (positions + page[..i]) + [page[i]];
      forall d | 0 <= d < |r|
        ensures VectorsOf(flat + vectors[..i + 1], positions + page[..i + 1], d)
          == VectorsOf(flat + vectors[..i], positions + page[..i], d) + if page[i].document == d then [vectors[i]] else []
      {
        VectorsSnoc(flat + vectors[..i], positions + page[..i], vectors[i], page[i], d);
      }
      r := r[page[i].document := r[page[i].document] + [vectors[i]]];
    }
    assert vectors[..|page|] == vectors && page[..|page|] == page;
  }

  // Each document has one vector for each of its chunks, and the embedding of that chunk if the gateway is
  // faithful, however the pages cut the documents.
  ghost predicate Aligned(gateway: Gateway, documents: seq<seq<string>>, vectors: seq<seq<Vector>>, maxInputs: nat) {
    && |vectors| == |documents|
    && (forall d :: 0 <= d < |documents| ==> |vectors[d]| == |documents[d]|)
    && (forall embed, d :: Faithful(gateway, embed, maxInputs) && 0 <= d < |documents| ==> vectors[d] == MapEmbed(documents[d], embed))
  }

  lemma DistributionAligns(gateway: Gateway, documents: seq<seq<string>>, flat: seq<Vector>, vectors: seq<seq<Vector>>, maxInputs: nat)
    requires Answered(gateway, Positions(documents), flat, maxInputs) && |vectors| == |documents|
    requires forall d :: 0 <= d < |vectors| ==> vectors[d] == VectorsOf(flat, Positions(documents), d)
    ensures Aligned(gateway, documents, vectors, maxInputs)
  {
    var positions := Positions(documents);
    forall d | 0 <= d < |documents| ensures |vectors[d]| == |documents[d]| {
      PlacesHoldChunks(documents, d);
      VectorsAtPlaces(flat, positions, d);
    }
    forall embed, d | Faithful(gateway, embed, maxInputs) && 0 <= d < |documents| ensures vectors[d] == MapEmbed(documents[d], embed) {
      PlacesHoldChunks(documents, d);
      VectorsAtPlaces(flat, positions, d);
      assert FlatEmbedded(flat, positions, embed);
    }
  }

  // The requests made so far hold these texts, in order, and all but the last are full.
  ghost predicate Paged(pages: seq<seq<Position>>, positions: seq<Position>, maxInputs: nat) {
    && Flatten(pages) == positions
    && (forall k :: 0 <= k < |pages| ==> 1 <= |pages[k]| <= maxInputs)
    && (forall k :: 0 <= k < |pages| - 1 ==> |pages[k]| == maxInputs)
  }

  lemma OnePageMore(pages: seq<seq<Position>>, positions: seq<Position>, page: seq<Position>, maxInputs: nat)
    requires Paged(pages, positions, maxInputs) && 1 <= |page| <= maxInputs
    requires forall k :: 0 <= k < |pages| ==> |pages[k]| == maxInputs
    ensures Paged(pages + [page], positions + page, maxInputs)
  {
    FlattenSnoc(pages, page);
  }

  method EmbedPreparedDocuments(documents: seq<seq<string>>, maxInputs: nat, gateway: Gateway)
    returns (r: Result<seq<seq<Vector>>, Error>, ghost pages: seq<seq<Position>>)
    requires maxInputs >= 1
    ensures r.Ok? ==> Aligned(gateway, documents, r.value, maxInputs) && Paged(pages, Positions(documents), maxInputs)
    ensures r.Err? ==> forall embed :: !Faithful(gateway, embed, maxInputs)
  {
    var positions := Positions(documents);
    var byDocument: seq<seq<Vector>> := seq(|documents|, _ => []);
    ghost var flat: seq<Vector> := [];
    var offset := 0;
    pages := [];
    while offset < |positions|
      invariant 0 <= offset <= |positions| && |byDocument| == |documents| && |flat| == offset
      invariant Answered(gateway, positions[..offset], flat, maxInputs)
      invariant Paged(pages, positions[..offset], maxInputs)
      invariant offset < |positions| ==> forall k :: 0 <= k < |pages| ==> |pages[k]| == maxInputs
      invariant forall d :: 0 <= d < |byDocument| ==> byDocument[d] == VectorsOf(flat, positions[..offset], d)
      decreases |positions| - offset
    {
      var end := if offset + maxInputs < |positions| then offset + maxInputs else |positions|;
      var page := positions[offset..end];
      var response := gateway(TextsOf(page));
      if response.Err? {
        return Err(response.error), pages;
      }
      if |response.value| != |page| {
        return Err(CountMismatch), pages;
      }
      forall k | 0 <= k < |page| ensures page[k].document < |byDocument| {
        PositionsInRange(documents, offset + k);
      }
      byDocument := Distribute(byDocument, page, response.value, positions[..offset], flat);
      PageAnswered(gateway, positions[..offset], flat, page, response.value, maxInputs);
      assert positions[..end] == positions[..offset] + page;
      OnePageMore(pages, positions[..offset], page, maxInputs);
      pages := pages + [page];
      flat := flat + response.value;
      offset := end;
    }
    assert positions[..|positions|] == positions;
    DistributionAligns(gateway, documents, flat, byDocument, maxInputs);
    return Ok(byDocument), pages;
  }

  // ---------------------------------------------------------------- process_documents

  type Persist = (nat, seq<Vector>) -> Outcome

  function ChunksOf(prepared: seq<Preparation>, group: seq<nat>): seq<seq<string>>
    requires forall k :: 0 <= k < |group| ==> group[k] < |prepared| && prepared[group[k]].Ready?
  {
    seq(|group|, k requires 0 <= k < |group| => prepared[group[k]].chunks)
  }

  function ChunkTotal(documents: seq<seq<string>>): nat {
    if documents == [] then 0 else ChunkTotal(documents[..|documents| - 1]) + |documents[|documents| - 1]|
  }

  // The documents still to be embedded, in order.
  function ReadyOnes(prepared: seq<Preparation>): seq<nat> {
    if prepared == [] then []
    else
      var n := |prepared| - 1;
      ReadyOnes(prepared[..n]) + if prepared[n].Ready? then [n] else []
  }

  ghost predicate ReadyGroup(prepared: seq<Preparation>, group: seq<nat>) {
    forall k :: 0 <= k < |group| ==> group[k] < |prepared| && prepared[group[k]].Ready?
  }

  // A flushed group fits into one request, or is a single document.
  ghost predicate FlushOk(prepared: seq<Preparation>, group: seq<nat>, maxInputs: nat) {
    ReadyGroup(prepared, group) && group != [] && (ChunkTotal(ChunksOf(prepared, group)) <= maxInputs || |group| == 1)
  }

  // The outcome of document i: settled before, or that of storing the right vectors.
  ghost predicate OutcomeIs(gateway: Gateway, prepared: Preparation, i: nat, outcome: Outcome, persist: Persist, maxInputs: nat) {
    match prepared
    case Settled(o) => outcome == o
    case Ready(chunks) => exists vectors ::
      && |vectors| == |chunks| && outcome == persist(i, vectors)
      && forall embed :: Faithful(gateway, embed, maxInputs) ==> vectors == MapEmbed(chunks, embed)
  }

  ghost predicate Recorded(gateway: Gateway, prepared: seq<Preparation>, outcomes: seq<Option<Outcome>>, i: nat, persist: Persist, maxInputs: nat)
    requires i < |prepared| == |outcomes|
  {
    outcomes[i].Some? && OutcomeIs(gateway, prepared[i], i, outcomes[i].value, persist, maxInputs)
  }

  // flush: the pending documents are embedded together and their outcomes are recorded.
  method Flush(prepared: seq<Preparation>, pending: seq<nat>, outcomes: seq<Option<Outcome>>, maxInputs: nat, gateway: Gateway, persist: Persist)
    returns (r: Result<seq<Option<Outcome>>, Error>)
    requires maxInputs >= 1 && |outcomes| == |prepared| && ReadyGroup(prepared, pending)
    ensures r.Err? ==> forall embed :: !Faithful(gateway, embed, maxInputs)
    ensures r.Ok? ==> |r.value| == |prepared|
    ensures r.Ok? ==> forall i :: 0 <= i < |prepared| && i !in pending ==> r.value[i] == outcomes[i]
    ensures r.Ok? ==> forall i :: 0 <= i < |prepared| && i in pending ==> Recorded(gateway, prepared, r.value, i, persist, maxInputs)
  {
    if pending == [] {
      return Ok(outcomes);
    }
    var embedded, _ := EmbedPreparedDocuments(ChunksOf(prepared, pending), maxInputs, gateway);
    if embedded.Err? {
      return Err(embedded.error);
    }
    var after := outcomes;
    for k := 0 to |pending|
      invariant |after| == |prepared|
      invariant forall i :: 0 <= i < |prepared| && i !in pending[..k] ==> after[i] == outcomes[i]
      invariant forall i :: 0 <= i < |prepared| && i in pending[..k] ==> Recorded(gateway, prepared, after, i, persist, maxInputs)
    {
      var i := pending[k];
      after := after[i := Some(persist(i, embedded.value[k]))];
      assert pending[..k + 1] == pending[..k] + [i];
      assert OutcomeIs(gateway, prepared[i], i, after[i].value, persist, maxInputs);
      assert Recorded(gateway, prepared, after, i, persist, maxInputs);
    }
    assert pending[..|pending|] == pending;
    return Ok(after);
  }

  lemma ChunksSnoc(prepared: seq<Preparation>, group: seq<nat>, i: nat)
    requires ReadyGroup(prepared, group) && i < |prepared| && prepared[i].Ready?
    ensures ReadyGroup(prepared, group + [i])
    ensures ChunkTotal(ChunksOf(prepared, group + [i])) == ChunkTotal(ChunksOf(prepared, group)) + |prepared[i].chunks|
  {
    var longer := ChunksOf(prepared, group + [i]);
    assert longer[..|group|] == ChunksOf(prepared, group);
  }

  lemma ReadySnoc(prepared: seq<Preparation>, n: nat)
    requires n < |prepared|
    ensures ReadyOnes(prepared[..n + 1]) == ReadyOnes(prepared[..n]) + if prepared[n].Ready? then [n] else []
  {
    assert prepared[..n + 1][..n] == prepared[..n];
  }

  // The group is full, or the next document does not fit into it.
  ghost predicate FullFor(prepared: seq<Preparation>, group: seq<nat>, next: nat, maxInputs: nat) {
    && ReadyGroup(prepared, group) && next < |prepared| && prepared[next].Ready?
    && (ChunkTotal(ChunksOf(prepared, group)) >= maxInputs || ChunkTotal(ChunksOf(prepared, group)) + |prepared[next].chunks| > maxInputs)
  }

  ghost predicate FullBefore(prepared: seq<Preparation>, groups: seq<seq<nat>>, k: nat, maxInputs: nat) {
    k + 1 < |groups| ==> groups[k + 1] != [] && FullFor(prepared, groups[k], groups[k + 1][0], maxInputs)
  }

  // No group is flushed too early: the document that begins the next one did not fit.
  ghost predicate Tight(prepared: seq<Preparation>, groups: seq<seq<nat>>, maxInputs: nat) {
    forall k: nat :: FullBefore(prepared, groups, k, maxInputs)
  }

  function WithPending(groups: seq<seq<nat>>, pending: seq<nat>): seq<seq<nat>> {
    if pending == [] then groups else groups + [pending]
  }

  // Whatever comes next would not fit into the last group that was flushed.
  ghost predicate LastIsFull(prepared: seq<Preparation>, groups: seq<seq<nat>>, pending: seq<nat>, maxInputs: nat) {
    pending == [] && groups != [] ==>
      ReadyGroup(prepared, groups[|groups| - 1]) && ChunkTotal(ChunksOf(prepared, groups[|groups| - 1])) >= maxInputs
  }

  ghost predicate TightSoFar(prepared: seq<Preparation>, groups: seq<seq<nat>>, pending: seq<nat>, maxInputs: nat) {
    Tight(prepared, WithPending(groups, pending), maxInputs) && LastIsFull(prepared, groups, pending, maxInputs)
  }

  // The document joins the pending ones.
  lemma TightJoin(prepared: seq<Preparation>, groups: seq<seq<nat>>, pending: seq<nat>, i: nat, maxInputs: nat)
    requires TightSoFar(prepared, groups, pending, maxInputs) && i < |prepared| && prepared[i].Ready?
    ensures TightSoFar(prepared, groups, pending + [i], maxInputs)
  {
    var before, after := WithPending(groups, pending), WithPending(groups, pending + [i]);
    forall k: nat ensures FullBefore(prepared, after, k, maxInputs) {
      assert FullBefore(prepared, before, k, maxInputs);
    }
  }

  // The document does not fit behind the pending ones, which are flushed without it.
  lemma TightApart(prepared: seq<Preparation>, groups: seq<seq<nat>>, pending: seq<nat>, i: nat, maxInputs: nat)
    requires TightSoFar(prepared, groups, pending, maxInputs) && pending != [] && FullFor(prepared, pending, i, maxInputs)
    ensures TightSoFar(prepared, groups + [pending], [i], maxInputs)
  {
    var before, after := groups + [pending], groups + [pending] + [[i]];
    forall k: nat ensures FullBefore(prepared, after, k, maxInputs) {
      assert FullBefore(prepared, before, k, maxInputs);
    }
  }

  // The pending ones are full and are flushed.
  lemma TightFlush(prepared: seq<Preparation>, groups: seq<seq<nat>>, pending: seq<nat>, maxInputs: nat)
    requires TightSoFar(prepared, groups, pending, maxInputs) && pending != []
    requires ReadyGroup(prepared, pending) && ChunkTotal(ChunksOf(prepared, pending)) >= maxInputs
    ensures TightSoFar(prepared, groups + [pending], [], maxInputs)
  {
  }

  // What the loop has flushed and what it holds back after the first n documents.
  ghost predicate Batched(prepared: seq<Preparation>, n: nat, groups: seq<seq<nat>>, pending: seq<nat>, count: nat, maxInputs: nat) {
    && n <= |prepared| && ReadyOnes(prepared[..n]) == Flatten(groups) + pending
    && (forall k :: 0 <= k < |groups| ==> FlushOk(prepared, groups[k], maxInputs))
    && ReadyGroup(prepared, pending) && count == ChunkTotal(ChunksOf(prepared, pending))
    && (pending != [] ==> count < maxInputs && FlushOk(prepared, pending, maxInputs))
  }

  // The outcomes recorded so far: those of settled documents and of flushed ones.
  ghost predicate Outcomes(gateway: Gateway, prepared: seq<Preparation>, outcomes: seq<Option<Outcome>>, flushed: seq<nat>, persist: Persist, maxInputs: nat) {
    && |outcomes| == |prepared|
    && forall i :: 0 <= i < |prepared| && (prepared[i].Settled? || i in flushed) ==> Recorded(gateway, prepared, outcomes, i, persist, maxInputs)
  }

  lemma FlushedOne(groups: seq<seq<nat>>, group: seq<nat>)
    ensures Flatten(groups + [group]) == Flatten(groups) + group
  {
    FlattenSnoc(groups, group);
  }

  // Flush the pending documents as one more group.
  method FlushPending(prepared: seq<Preparation>, outcomes: seq<Option<Outcome>>, pending: seq<nat>, maxInputs: nat, gateway: Gateway, persist: Persist,
                      ghost groups: seq<seq<nat>>)
    returns (r: Result<seq<Option<Outcome>>, Error>, ghost groups': seq<seq<nat>>)
    requires maxInputs >= 1 && Outcomes(gateway, prepared, outcomes, Flatten(groups), persist, maxInputs)
    requires pending != [] ==> FlushOk(prepared, pending, maxInputs)
    requires forall k :: 0 <= k < |groups| ==> FlushOk(prepared, groups[k], maxInputs)
    ensures r.Err? ==> forall embed :: !Faithful(gateway, embed, maxInputs)
    ensures r.Ok? ==> Flatten(groups') == Flatten(groups) + pending && groups' == WithPending(groups, pending)
    ensures r.Ok? ==> Outcomes(gateway, prepared, r.value, Flatten(groups'), persist, maxInputs)
    ensures r.Ok? ==> forall k :: 0 <= k < |groups'| ==> FlushOk(prepared, groups'[k], maxInputs)
  {
    groups' := groups;
    r := Flush(prepared, pending, outcomes, maxInputs, gateway, persist);
    if r.Err? {
      return;
    }
    if pending != [] {
      FlushedOne(groups, pending);
      groups' := groups + [pending];
    }
    forall i | 0 <= i < |prepared| && (prepared[i].Settled? || i in Flatten(groups')) ensures Recorded(gateway, prepared, r.value, i, persist, maxInputs) {
      if i !in pending {
        assert i in Flatten(groups') ==> i in Flatten(groups);
        assert Recorded(gateway, prepared, outcomes, i, persist, maxInputs);
      }
    }
  }

  lemma FlushedBatch(prepared: seq<Preparation>, n: nat, groups: seq<seq<nat>>, maxInputs: nat)
    requires n <= |prepared| && ReadyOnes(prepared[..n]) == Flatten(groups)
    requires forall k :: 0 <= k < |groups| ==> FlushOk(prepared, groups[k], maxInputs)
    ensures Batched(prepared, n, groups, [], 0, maxInputs)
  {
  }

  lemma JoinedBatch(prepared: seq<Preparation>, n: nat, groups: seq<seq<nat>>, pending: seq<nat>, count: nat, maxInputs: nat)
    requires Batched(prepared, n, groups, pending, count, maxInputs) && n < |prepared| && prepared[n].Ready?
    requires pending != [] ==> count + |prepared[n].chunks| <= maxInputs
    ensures ReadyOnes(prepared[..n + 1]) == Flatten(groups) + (pending + [n])
    ensures FlushOk(prepared, pending + [n], maxInputs) && ChunkTotal(ChunksOf(prepared, pending + [n])) == count + |prepared[n].chunks|
  {
    ReadySnoc(prepared, n);
    ChunksSnoc(prepared, pending, n);
  }

  // The first half of a turn of the loop over the prepared documents: flush when document i does not fit.
  method MakeRoom(prepared: seq<Preparation>, i: nat, outcomes: seq<Option<Outcome>>, pending: seq<nat>, count: nat,
                  maxInputs: nat, gateway: Gateway, persist: Persist, ghost groups: seq<seq<nat>>)
    returns (r: Result<seq<Option<Outcome>>, Error>, pending': seq<nat>, count': nat, ghost groups': seq<seq<nat>>)
    requires maxInputs >= 1 && i < |prepared| && prepared[i].Ready? && Batched(prepared, i, groups, pending, count, maxInputs)
    requires Outcomes(gateway, prepared, outcomes, Flatten(groups), persist, maxInputs) && TightSoFar(prepared, groups, pending, maxInputs)
    ensures r.Err? ==> forall embed :: !Faithful(gateway, embed, maxInputs)
    ensures r.Ok? ==> Batched(prepared, i, groups', pending', count', maxInputs) && TightSoFar(prepared, groups', pending' + [i], maxInputs)
    ensures r.Ok? ==> Outcomes(gateway, prepared, r.value, Flatten(groups'), persist, maxInputs)
    ensures r.Ok? && pending' != [] ==> count' + |prepared[i].chunks| <= maxInputs
  {
    r, pending', count', groups' := Ok(outcomes), pending, count, groups;
    if pending == [] || count + |prepared[i].chunks| <= maxInputs {
      TightJoin(prepared, groups, pending, i, maxInputs);
      return;
    }
    TightApart(prepared, groups, pending, i, maxInputs);
    r, groups' := FlushPending(prepared, outcomes, pending, maxInputs, gateway, persist, groups);
    if r.Ok? {
      pending', count' := [], 0;
      FlushedBatch(prepared, i, groups', maxInputs);
      assert [] + [i] == [i];
    }
  }

  // One turn of the loop over the prepared documents.
  method AddDocument(prepared: seq<Preparation>, i: nat, outcomes: seq<Option<Outcome>>, pending: seq<nat>, count: nat,
                     maxInputs: nat, gateway: Gateway, persist: Persist, ghost groups: seq<seq<nat>>)
    returns (r: Result<seq<Option<Outcome>>, Error>, pending': seq<nat>, count': nat, ghost groups': seq<seq<nat>>)
    requires maxInputs >= 1 && i < |prepared| && prepared[i].Ready? && Batched(prepared, i, groups, pending, count, maxInputs)
    requires Outcomes(gateway, prepared, outcomes, Flatten(groups), persist, maxInputs) && TightSoFar(prepared, groups, pending, maxInputs)
    ensures r.Err? ==> forall embed :: !Faithful(gateway, embed, maxInputs)
    ensures r.Ok? ==> TightSoFar(prepared, groups', pending', maxInputs)
    ensures r.Ok? ==> Batched(prepared, i + 1, groups', pending', count', maxInputs)
    ensures r.Ok? ==> Outcomes(gateway, prepared, r.value, Flatten(groups'), persist, maxInputs)
  {
    r, pending', count', groups' := MakeRoom(prepared, i, outcomes, pending, count, maxInputs, gateway, persist, groups);
    if r.Err? {
      return;
    }
    JoinedBatch(prepared, i, groups', pending', count', maxInputs);
    pending', count' := pending' + [i], count' + |prepared[i].chunks|;
    if count' >= maxInputs {
      TightFlush(prepared, groups', pending', maxInputs);
      r, groups' := FlushPending(prepared, r.value, pending', maxInputs, gateway, persist, groups');
      if r.Err? {
        return;
      }
      pending', count' := [], 0;
      FlushedBatch(prepared, i + 1, groups', maxInputs);
    }
  }

  // The loop over the prepared documents; some may still be pending at its end.
  method EmbedGroups(prepared: seq<Preparation>, maxInputs: nat, gateway: Gateway, persist: Persist)
    returns (r: Result<seq<Option<Outcome>>, Error>, pending: seq<nat>, ghost count: nat, ghost groups: seq<seq<nat>>)
    requires maxInputs >= 1
    ensures r.Err? ==> forall embed :: !Faithful(gateway, embed, maxInputs)
    ensures r.Ok? ==> Batched(prepared, |prepared|, groups, pending, count, maxInputs) && TightSoFar(prepared, groups, pending, maxInputs)
    ensures r.Ok? ==> Outcomes(gateway, prepared, r.value, Flatten(groups), persist, maxInputs)
  {
    var outcomes: seq<Option<Outcome>> := RecordSettled(prepared, gateway, persist, maxInputs);
    groups := [];
    pending := [];
    var chunks: nat := 0;
    for i := 0 to |prepared|
      invariant Batched(prepared, i, groups, pending, chunks, maxInputs) && TightSoFar(prepared, groups, pending, maxInputs)
      invariant Outcomes(gateway, prepared, outcomes, Flatten(groups), persist, maxInputs)
    {
      if prepared[i].Settled? {
        SettledBatch(prepared, i, groups, pending, chunks, maxInputs);
      } else {
        var added;
        added, pending, chunks, groups := AddDocument(prepared, i, outcomes, pending, chunks, maxInputs, gateway, persist, groups);
        if added.Err? {
          return Err(added.error), pending, chunks, groups;
        }
        outcomes := added.value;
      }
    }
    return Ok(outcomes), pending, chunks, groups;
  }

  lemma SettledBatch(prepared: seq<Preparation>, n: nat, groups: seq<seq<nat>>, pending: seq<nat>, count: nat, maxInputs: nat)
    requires Batched(prepared, n, groups, pending, count, maxInputs) && n < |prepared| && prepared[n].Settled?
    ensures Batched(prepared, n + 1, groups, pending, count, maxInputs)
  {
    ReadySnoc(prepared, n);
    assert ReadyOnes(prepared[..n + 1]) == ReadyOnes(prepared[..n]);
  }

  method Collect(outcomes: seq<Option<Outcome>>) returns (r: seq<Outcome>)
    requires forall i :: 0 <= i < |outcomes| ==> outcomes[i].Some?
    ensures |r| == |outcomes| && forall i :: 0 <= i < |r| ==> outcomes[i] == Some(r[i])
  {
    r := [];
    for i := 0 to |outcomes|
      invariant |r| == i && forall k :: 0 <= k < i ==> outcomes[k] == Some(r[k])
    {
      r := r + [outcomes[i].value];
    }
  }

  // Documents are embedded in groups, in order.  Each outcome is that of storing the document's own vectors.
  method ProcessDocuments(prepared: seq<Preparation>, maxInputs: nat, gateway: Gateway, persist: Persist)
    returns (r: Result<seq<Outcome>, Error>, ghost groups: seq<seq<nat>>)
    requires maxInputs >= 1
    ensures r.Err? ==> forall embed :: !Faithful(gateway, embed, maxInputs)
    ensures r.Ok? ==> Flatten(groups) == ReadyOnes(prepared) && forall k :: 0 <= k < |groups| ==> FlushOk(prepared, groups[k], maxInputs)
    ensures r.Ok? ==> Tight(prepared, groups, maxInputs)
    ensures r.Ok? ==> |r.value| == |prepared|
    ensures r.Ok? ==> forall i :: 0 <= i < |prepared| ==> OutcomeIs(gateway, prepared[i], i, r.value[i], persist, maxInputs)
  {
    var embedded, pending;
    ghost var count;
    embedded, pending, count, groups := EmbedGroups(prepared, maxInputs, gateway, persist);
    if embedded.Err? {
      return Err(embedded.error), groups;
    }
    var flushed;
    flushed, groups := FlushPending(prepared, embedded.value, pending, maxInputs, gateway, persist, groups);
    if flushed.Err? {
      return Err(flushed.error), groups;
    }
    AllRecorded(prepared, flushed.value, Flatten(groups), gateway, persist, maxInputs);
    forall i | 0 <= i < |prepared| ensures flushed.value[i].Some? {
      assert Recorded(gateway, prepared, flushed.value, i, persist, maxInputs);
    }
    var outcomes := Collect(flushed.value);
    AllOutcomes(prepared, flushed.value, outcomes, gateway, persist, maxInputs);
    return Ok(outcomes), groups;
  }

  lemma AllRecorded(prepared: seq<Preparation>, outcomes: seq<Option<Outcome>>, flushed: seq<nat>, gateway: Gateway, persist: Persist, maxInputs: nat)
    requires Outcomes(gateway, prepared, outcomes, flushed, persist, maxInputs) && flushed == ReadyOnes(prepared[..|prepared|])
    ensures flushed == ReadyOnes(prepared)
    ensures forall i :: 0 <= i < |prepared| ==> Recorded(gateway, prepared, outcomes, i, persist, maxInputs)
  {
    assert prepared[..|prepared|] == prepared;
    forall i | 0 <= i < |prepared| ensures Recorded(gateway, prepared, outcomes, i, persist, maxInputs) {
      ReadyMember(prepared, i);
    }
  }

  lemma AllOutcomes(prepared: seq<Preparation>, recorded: seq<Option<Outcome>>, outcomes: seq<Outcome>, gateway: Gateway, persist: Persist, maxInputs: nat)
    requires |prepared| == |recorded| == |outcomes|
    requires forall i :: 0 <= i < |prepared| ==> Recorded(gateway, prepared, recorded, i, persist, maxInputs) && recorded[i] == Some(outcomes[i])
    ensures forall i :: 0 <= i < |prepared| ==> OutcomeIs(gateway, prepared[i], i, outcomes[i], persist, maxInputs)
  {
    forall i | 0 <= i < |prepared| ensures OutcomeIs(gateway, prepared[i], i, outcomes[i], persist, maxInputs) {
      assert Recorded(gateway, prepared, recorded, i, persist, maxInputs);
    }
  }

  lemma {:induction false} ReadyMember(prepared: seq<Preparation>, i: nat)
    requires i < |prepared|
    ensures prepared[i].Settled? || i in ReadyOnes(prepared)
  {
    if i < |prepared| - 1 {
      ReadyMember(prepared[..|prepared| - 1], i);
    }
  }

  function Indices(n: nat): (r: set<nat>)
    ensures forall i :: i in r <==> 0 <= i < n
  {
    if n == 0 then {} else Indices(n - 1) + {n - 1}
  }

  // record_outcome for the documents that preparation settled, in whatever order they complete
  method RecordSettled(prepared: seq<Preparation>, ghost gateway: Gateway, ghost persist: Persist, ghost maxInputs: nat)
    returns (outcomes: seq<Option<Outcome>>)
    ensures Outcomes(gateway, prepared, outcomes, [], persist, maxInputs)
  {
    outcomes := seq(|prepared|, _ => None);
    var todo := Indices(|prepared|);
    while todo != {}
      invariant |outcomes| == |prepared| && forall i :: i in todo ==> 0 <= i < |prepared|
      invariant forall i :: 0 <= i < |prepared| && i !in todo && prepared[i].Settled? ==> outcomes[i] == Some(prepared[i].outcome)
      decreases todo
    {
      var i :| i in todo;
      if prepared[i].Settled? {
        outcomes := outcomes[i := Some(prepared[i].outcome)];
      }
      todo := todo - {i};
    }
  }

  // ---------------------------------------------------------------- plan_job

  method PlanBatches(documents: seq<nat>, batchSize: nat) returns (batches: seq<seq<nat>>, total: nat)
    ensures batches == Groups(documents, batchSize) && Flatten(batches) == documents && total == |documents|
    ensures batchSize >= 1 ==> Sized(batches, batchSize)
  {
    batches := CutBatches(documents, batchSize);
    total := TotalCount(batches);
    GroupsFlatten(documents, batchSize);
    if batchSize >= 1 {
      GroupsPartition(documents, batchSize);
    }
  }

  method TotalCount(batches: seq<seq<nat>>) returns (total: nat)
    ensures total == |Flatten(batches)|
  {
    total := 0;
    for k := 0 to |batches|
      invariant total == |Flatten(batches[..k])|
    {
      assert batches[..k + 1] == batches[..k] + [batches[k]];
      FlattenSnoc(batches[..k], batches[k]);
      total := total + |batches[k]|;
    }
    assert batches[..|batches|] == batches;
  }

  // The batches already planned are full, the current one is not.
  ghost predicate Planned(groups: seq<seq<nat>>, batches: seq<seq<nat>>, current: seq<nat>, size: nat) {
    && groups == batches + (if current == [] then [] else [current])
    && (current != [] ==> |current| < size) && forall k :: 0 <= k < |batches| ==> |batches[k]| >= size
  }

  method CutBatches(documents: seq<nat>, batchSize: nat) returns (batches: seq<seq<nat>>)
    ensures batches == Groups(documents, batchSize)
  {
    batches := [];
    var current: seq<nat> := [];
    for i := 0 to |documents|
      invariant Planned(Groups(documents[..i], batchSize), batches, current, batchSize)
    {
      assert documents[..i + 1] == documents[..i] + [documents[i]];
      GroupsSnoc(documents[..i], documents[i], batchSize);
      PushOnto(batches, current, documents[i], batchSize);
      current := current + [documents[i]];
      if |current| < batchSize {
        continue;
      }
      batches := batches + [current];
      current := [];
    }
    assert documents[..|documents|] == documents;
    if current != [] {
      batches := batches + [current];
    }
  }

  lemma PushOnto(batches: seq<seq<nat>>, current: seq<nat>, d: nat, size: nat)
    requires (current != [] ==> |current| < size) && forall k :: 0 <= k < |batches| ==> |batches[k]| >= size
    ensures Push(batches + (if current == [] then [] else [current]), d, size) == batches + [current + [d]]
  {
    if current == [] {
      assert batches + [] == batches && current + [d] == [d];
    } else {
      var groups := batches + [current];
      assert groups[..|groups| - 1] == batches;
    }
  }
}
