/**
  Embedding through the provider's batch API (app/matter_embeddings.py): documents are cut into pages, the
  pages are answered in any order, and the answers are joined back to the documents.
 */
module HostedEmbeddings {
  import opened Common
  import VoyageBatch
  import VoyageJoin
  import opened MatterEmbeddings

  type Vector = VoyageBatch.Vector

  // `document-%06d-page-%06d`, or an id of another form
  datatype Custom = Page(document: nat, page: nat) | Foreign(name: string)

  datatype PageRef = PageRef(custom: Custom, start: nat, end: nat)

  datatype Request = Request(custom: Custom, input: seq<string>)

  // A document of the manifest: settled by preparation, or PENDING with its pages.
  datatype Entry = Done(outcome: Outcome) | Pending(chunkCount: nat, pages: seq<PageRef>)

  datatype Hosted = Hosted(entries: seq<Entry>, requests: seq<Request>)

  datatype ResultLine = RBlank | RInvalid | RAnswer(custom: Custom, modelOk: bool, outcome: VoyageBatch.Outcome)

  datatype HostedError = TooManyRequests | InvalidLine | DuplicateResult

  datatype Counts = Counts(processed: nat, embedded: nat, skipped: nat, failed: nat)

  // ---------------------------------------------------------------- _prepare_voyage_batch

  function PageEnd(start: nat, n: nat, size: nat): nat {
    if start + size < n then start + size else n
  }

  // for page_number, start in enumerate(range(0, n, size))
  function Pages(d: nat, page: nat, start: nat, n: nat, size: nat): seq<PageRef>
    requires size >= 1
    decreases n - start
  {
    if start >= n then [] else [PageRef(Page(d, page), start, PageEnd(start, n, size))] + Pages(d, page + 1, PageEnd(start, n, size), n, size)
  }

  predicate InRange(pages: seq<PageRef>, n: nat) {
    forall k :: 0 <= k < |pages| ==> pages[k].start <= pages[k].end <= n
  }

  function RequestsOf(chunks: seq<string>, pages: seq<PageRef>): seq<Request>
    requires InRange(pages, |chunks|)
  {
    seq(|pages|, k requires 0 <= k < |pages| && pages[k].start <= pages[k].end <= |chunks| =>
      Request(pages[k].custom, chunks[pages[k].start..pages[k].end]))
  }

  function PageInputs(chunks: seq<string>, pages: seq<PageRef>): seq<seq<string>>
    requires InRange(pages, |chunks|)
  {
    seq(|pages|, k requires 0 <= k < |pages| && pages[k].start <= pages[k].end <= |chunks| => chunks[pages[k].start..pages[k].end])
  }

  lemma {:induction false} FlattenCons<T>(part: seq<T>, parts: seq<seq<T>>)
    ensures VoyageBatch.Flatten([part] + parts) == part + VoyageBatch.Flatten(parts)
  {
    if parts == [] {
      assert [part] + parts == [part];
    } else {
      var front, last := parts[..|parts| - 1], parts[|parts| - 1];
      FlattenCons(part, front);
      assert ([part] + parts)[..|parts|] == [part] + front;
      assert (part + VoyageBatch.Flatten(front)) + last == part + (VoyageBatch.Flatten(front) + last);
    }
  }

  ghost predicate Numbered(pages: seq<PageRef>, d: nat, page: nat, start: nat, n: nat, size: nat) {
    forall k :: 0 <= k < |pages| ==>
      && pages[k].custom == Page(d, page + k) && start <= pages[k].start < pages[k].end <= n && pages[k].end - pages[k].start <= size
      && (k < |pages| - 1 ==> pages[k].end - pages[k].start == size)
  }

  lemma NumberedCons(head: PageRef, rest: seq<PageRef>, d: nat, page: nat, start: nat, end: nat, n: nat, size: nat)
    requires Numbered(rest, d, page + 1, end, n, size) && head == PageRef(Page(d, page), start, end)
    requires start < end <= n && end - start <= size && (rest == [] || end - start == size)
    ensures Numbered([head] + rest, d, page, start, n, size)
  {
    var pages := [head] + rest;
    forall k | 0 <= k < |pages|
      ensures pages[k].custom == Page(d, page + k) && start <= pages[k].start < pages[k].end <= n && pages[k].end - pages[k].start <= size
      ensures k < |pages| - 1 ==> pages[k].end - pages[k].start == size
    {
      if k > 0 {
        assert pages[k] == rest[k - 1];
      }
    }
  }

  // The pages of a document are numbered; none is empty or too large, and all but the last are full.
  lemma {:induction false} PagesNumbered(d: nat, page: nat, start: nat, n: nat, size: nat)
    requires size >= 1 && start <= n
    ensures Numbered(Pages(d, page, start, n, size), d, page, start, n, size) && InRange(Pages(d, page, start, n, size), n)
    decreases n - start
  {
    if start < n {
      var end := PageEnd(start, n, size);
      PagesNumbered(d, page + 1, end, n, size);
      NumberedCons(PageRef(Page(d, page), start, end), Pages(d, page + 1, end, n, size), d, page, start, end, n, size);
    }
  }

  lemma InputsCons(chunks: seq<string>, head: PageRef, rest: seq<PageRef>)
    requires InRange(rest, |chunks|) && head.start <= head.end <= |chunks|
    ensures InRange([head] + rest, |chunks|)
    ensures PageInputs(chunks, [head] + rest) == [chunks[head.start..head.end]] + PageInputs(chunks, rest)
  {
  }

  // They cover the chunks of the document in order.
  lemma {:induction false} PagesCover(d: nat, page: nat, start: nat, chunks: seq<string>, size: nat)
    requires size >= 1 && start <= |chunks|
    ensures InRange(Pages(d, page, start, |chunks|, size), |chunks|)
    ensures VoyageBatch.Flatten(PageInputs(chunks, Pages(d, page, start, |chunks|, size))) == chunks[start..]
    decreases |chunks| - start
  {
    if start < |chunks| {
      var end := PageEnd(start, |chunks|, size);
      PagesCover(d, page + 1, end, chunks, size);
      var rest := Pages(d, page + 1, end, |chunks|, size);
      InputsCons(chunks, PageRef(Page(d, page), start, end), rest);
      FlattenCons(chunks[start..end], PageInputs(chunks, rest));
      assert chunks[start..end] + chunks[end..] == chunks[start..];
    }
  }

  lemma RequestsSnoc(chunks: seq<string>, pages: seq<PageRef>, last: PageRef)
    requires InRange(pages, |chunks|) && last.start <= last.end <= |chunks|
    ensures InRange(pages + [last], |chunks|)
    ensures RequestsOf(chunks, pages + [last]) == RequestsOf(chunks, pages) + [Request(last.custom, chunks[last.start..last.end])]
  {
  }

  lemma AllSnoc(prepared: seq<Preparation>, d: nat, size: nat)
    requires size >= 1 && d < |prepared|
    ensures AllRequests(prepared[..d + 1], size) == AllRequests(prepared[..d], size) + DocumentRequests(d, prepared[d], size)
  {
    assert prepared[..d + 1][..d] == prepared[..d];
  }

  lemma ConsShifts(pages: seq<PageRef>, head: PageRef, rest: seq<PageRef>)
    ensures pages + ([head] + rest) == (pages + [head]) + rest
  {
  }

  function EntryFor(d: nat, prepared: Preparation, size: nat): Entry
    requires size >= 1
  {
    match prepared
    case Settled(outcome) => Done(outcome)
    case Ready(chunks) => Pending(|chunks|, Pages(d, 0, 0, |chunks|, size))
  }

  function DocumentRequests(d: nat, prepared: Preparation, size: nat): seq<Request>
    requires size >= 1
  {
    match prepared
    case Settled(_) => []
    case Ready(chunks) =>
      PagesCover(d, 0, 0, chunks, size);
      RequestsOf(chunks, Pages(d, 0, 0, |chunks|, size))
  }

  function AllRequests(prepared: seq<Preparation>, size: nat): seq<Request>
    requires size >= 1
  {
    if prepared == [] then []
    else
      var n := |prepared| - 1;
      AllRequests(prepared[..n], size) + DocumentRequests(n, prepared[n], size)
  }

  method PageDocument(d: nat, chunks: seq<string>, size: nat) returns (pages: seq<PageRef>, requests: seq<Request>)
    requires size >= 1
    ensures pages == Pages(d, 0, 0, |chunks|, size) && requests == DocumentRequests(d, Ready(chunks), size)
  {
    pages, requests := [], [];
    var start, page := 0, 0;
    PagesCover(d, 0, 0, chunks, size);
    while start < |chunks|
      invariant start <= |chunks| && pages + Pages(d, page, start, |chunks|, size) == Pages(d, 0, 0, |chunks|, size)
      invariant InRange(pages, |chunks|) && requests == RequestsOf(chunks, pages)
      decreases |chunks| - start
    {
      var end := PageEnd(start, |chunks|, size);
      RequestsSnoc(chunks, pages, PageRef(Page(d, page), start, end));
      ConsShifts(pages, PageRef(Page(d, page), start, end), Pages(d, page + 1, end, |chunks|, size));
      requests := requests + [Request(Page(d, page), chunks[start..end])];
      pages := pages + [PageRef(Page(d, page), start, end)];
      start, page := end, page + 1;
    }
  }

  method PrepareEntry(d: nat, prepared: Preparation, size: nat) returns (entry: Entry, requests: seq<Request>)
    requires size >= 1
    ensures entry == EntryFor(d, prepared, size) && requests == DocumentRequests(d, prepared, size)
  {
    match prepared {
      case Settled(outcome) =>
        return Done(outcome), [];
      case Ready(chunks) =>
        var pages, added := PageDocument(d, chunks, size);
        return Pending(|chunks|, pages), added;
    }
  }

  ghost predicate EntriesFor(entries: seq<Entry>, prepared: seq<Preparation>, size: nat)
    requires size >= 1
  {
    |entries| == |prepared| && forall d :: 0 <= d < |prepared| ==> entries[d] == EntryFor(d, prepared[d], size)
  }

  lemma EntriesSnoc(entries: seq<Entry>, prepared: seq<Preparation>, d: nat, size: nat, entry: Entry)
    requires size >= 1 && d < |prepared| && EntriesFor(entries, prepared[..d], size) && entry == EntryFor(d, prepared[d], size)
    ensures EntriesFor(entries + [entry], prepared[..d + 1], size)
  {
    var longer := entries + [entry];
    forall k | 0 <= k < d + 1 ensures longer[k] == EntryFor(k, prepared[..d + 1][k], size) {
      if k < d {
        assert prepared[..d][k] == prepared[k] && longer[k] == entries[k];
      }
    }
  }

  method PrepareVoyageBatch(prepared: seq<Preparation>, size: nat) returns (r: Result<Hosted, HostedError>)
    requires size >= 1
    ensures r.Ok? <==> |AllRequests(prepared, size)| <= VoyageBatch.MAX_REQUESTS
    ensures r.Ok? ==> r.value.requests == AllRequests(prepared, size) && EntriesFor(r.value.entries, prepared, size)
  {
    var entries: seq<Entry>, requests: seq<Request> := [], [];
    for d := 0 to |prepared|
      invariant EntriesFor(entries, prepared[..d], size) && requests == AllRequests(prepared[..d], size)
    {
      AllSnoc(prepared, d, size);
      var entry, added := PrepareEntry(d, prepared[d], size);
      EntriesSnoc(entries, prepared, d, size, entry);
      entries, requests := entries + [entry], requests + added;
    }
    assert prepared[..|prepared|] == prepared;
    if |requests| > VoyageBatch.MAX_REQUESTS {
      return Err(TooManyRequests);
    }
    return Ok(Hosted(entries, requests));
  }

  // ---------------------------------------------------------------- _read_voyage_results

  // A row for every place, with a vector of the job's dimensions.
  predicate GoodRows(rows: seq<VoyageBatch.Row>, dimensions: nat) {
    VoyageJoin.Complete(rows, |rows|) && forall i :: 0 <= i < |rows| ==> |VoyageJoin.VectorAt(rows, i)| == dimensions
  }

  predicate GoodAnswer(modelOk: bool, outcome: VoyageBatch.Outcome, dimensions: nat) {
    modelOk && outcome.Data? && GoodRows(outcome.rows, dimensions)
  }

  function PageVectors(rows: seq<VoyageBatch.Row>): seq<Vector>
    requires VoyageJoin.Complete(rows, |rows|)
  {
    seq(|rows|, i requires 0 <= i < |rows| => VoyageJoin.VectorAt(rows, i))
  }

  method OrderRows(rows: seq<VoyageBatch.Row>, dimensions: nat) returns (r: Option<seq<Vector>>)
    ensures r.Some? <==> GoodRows(rows, dimensions)
    ensures r.Some? ==> r.value == PageVectors(rows)
  {
    if VoyageBatch.NoIndex in rows {
      return None;
    }
    var ordered := VoyageJoin.SortedRows(rows);
    var vectors: seq<Vector> := [];
    for i := 0 to |ordered|
      invariant |vectors| == i && forall k :: 0 <= k < i ==> ordered[k] == VoyageBatch.Row(k, Some(vectors[k]))
    {
      if ordered[i].index != i || ordered[i].embedding == None {
        if VoyageJoin.Complete(rows, |rows|) {
          VoyageJoin.SortedPlace(rows, |rows|, i);
        }
        return None;
      }
      vectors := vectors + [ordered[i].embedding.value];
    }
    VoyageJoin.SortedIsComplete(rows);
    assert vectors == PageVectors(rows);
    if i :| 0 <= i < |vectors| && |vectors[i]| != dimensions {
      assert |VoyageJoin.VectorAt(rows, i)| != dimensions;
      return None;
    }
    assert forall i :: 0 <= i < |rows| ==> VoyageJoin.VectorAt(rows, i) == vectors[i];
    return Some(vectors);
  }

  datatype Results = Results(vectors: map<Custom, seq<Vector>>, errors: set<Custom>)

  // The line answers its request well, or badly.
  predicate LineRead(line: ResultLine, results: Results, dimensions: nat) {
    line.RAnswer? ==>
      if GoodAnswer(line.modelOk, line.outcome, dimensions) then
        line.custom in results.vectors && results.vectors[line.custom] == PageVectors(line.outcome.rows) && line.custom !in results.errors
      else line.custom in results.errors && line.custom !in results.vectors
  }

  function Customs(lines: seq<ResultLine>): set<Custom> {
    set l | l in lines && l.RAnswer? :: l.custom
  }

  predicate AnsweredOnce(lines: seq<ResultLine>) {
    forall i, j :: 0 <= i < j < |lines| && lines[i].RAnswer? && lines[j].RAnswer? ==> lines[i].custom != lines[j].custom
  }

  ghost predicate ReadUpTo(lines: seq<ResultLine>, n: nat, results: Results, dimensions: nat) {
    && n <= |lines| && AnsweredOnce(lines[..n]) && RInvalid !in lines[..n]
    && (forall k :: 0 <= k < n ==> LineRead(lines[k], results, dimensions))
    && results.vectors.Keys + results.errors == Customs(lines[..n])
  }

  lemma ReadOne(lines: seq<ResultLine>, n: nat, results: Results, dimensions: nat, after: Results)
    requires ReadUpTo(lines, n, results, dimensions) && n < |lines| && lines[n].RAnswer?
    requires lines[n].custom !in results.vectors && lines[n].custom !in results.errors
    requires if GoodAnswer(lines[n].modelOk, lines[n].outcome, dimensions)
      then after == results.(vectors := results.vectors[lines[n].custom := PageVectors(lines[n].outcome.rows)])
      else after == results.(errors := results.errors + {lines[n].custom})
    ensures ReadUpTo(lines, n + 1, after, dimensions)
  {
    var custom := lines[n].custom;
    assert lines[..n + 1] == lines[..n] + [lines[n]];
    assert custom !in Customs(lines[..n]);
    forall k | 0 <= k < n && lines[k].RAnswer? ensures lines[k].custom != custom {
      assert lines[k] in lines[..n];
    }
    assert Customs(lines[..n + 1]) == Customs(lines[..n]) + {custom} by {
      assert lines[n] in lines[..n + 1];
      forall c | c in Customs(lines[..n]) ensures c in Customs(lines[..n + 1]) {
        var l :| l in lines[..n] && l.RAnswer? && l.custom == c;
        assert l in lines[..n + 1];
      }
    }
    forall k | 0 <= k < n + 1 ensures LineRead(lines[k], after, dimensions) {
      if k < n {
        assert LineRead(lines[k], results, dimensions);
      }
    }
  }

  lemma RepeatedAnswer(lines: seq<ResultLine>, n: nat, results: Results, dimensions: nat)
    requires ReadUpTo(lines, n, results, dimensions) && n < |lines| && lines[n].RAnswer?
    requires lines[n].custom in results.vectors || lines[n].custom in results.errors
    ensures !AnsweredOnce(lines)
  {
    assert lines[n].custom in Customs(lines[..n]);
    var l :| l in lines[..n] && l.RAnswer? && l.custom == lines[n].custom;
    var k :| 0 <= k < n && lines[..n][k] == l;
    assert lines[k] == l;
  }

  method ReadVoyageResults(lines: seq<ResultLine>, dimensions: nat) returns (r: Result<Results, HostedError>)
    ensures r.Ok? <==> RInvalid !in lines && AnsweredOnce(lines)
    ensures r.Ok? ==> forall k :: 0 <= k < |lines| ==> LineRead(lines[k], r.value, dimensions)
    ensures r.Ok? ==> r.value.vectors.Keys + r.value.errors == Customs(lines)
  {
    var results := Results(map[], {});
    for n := 0 to |lines|
      invariant ReadUpTo(lines, n, results, dimensions)
    {
      assert lines[..n + 1] == lines[..n] + [lines[n]];
      match lines[n] {
        case RBlank =>
          BlankLine(lines, n, results, dimensions);
        case RInvalid =>
          return Err(InvalidLine);
        case RAnswer(custom, modelOk, outcome) =>
          if custom in results.vectors || custom in results.errors {
            RepeatedAnswer(lines, n, results, dimensions);
            return Err(DuplicateResult);
          }
          ghost var before := results;
          var good := false;
          if modelOk && outcome.Data? {
            var vectors := OrderRows(outcome.rows, dimensions);
            if vectors.Some? {
              good := true;
              results := results.(vectors := results.vectors[custom := vectors.value]);
            }
          }
          if !good {
            results := results.(errors := results.errors + {custom});
          }
          ReadOne(lines, n, before, dimensions, results);
      }
    }
    assert lines[..|lines|] == lines;
    return Ok(results);
  }

  lemma BlankLine(lines: seq<ResultLine>, n: nat, results: Results, dimensions: nat)
    requires ReadUpTo(lines, n, results, dimensions) && n < |lines| && lines[n].RBlank?
    ensures ReadUpTo(lines, n + 1, results, dimensions)
  {
    assert lines[..n + 1] == lines[..n] + [lines[n]];
    assert Customs(lines[..n + 1]) == Customs(lines[..n]) by {
      forall c | c in Customs(lines[..n]) ensures c in Customs(lines[..n + 1]) {
        var l :| l in lines[..n] && l.RAnswer? && l.custom == c;
        assert l in lines[..n + 1];
      }
    }
  }

  // ---------------------------------------------------------------- finalize_voyage_batch

  function Concatenated(pages: seq<PageRef>, vectors: map<Custom, seq<Vector>>): seq<Vector>
    requires forall k :: 0 <= k < |pages| ==> pages[k].custom in vectors
  {
    if pages == [] then []
    else Concatenated(pages[..|pages| - 1], vectors) + vectors[pages[|pages| - 1].custom]
  }

  // The document's pages were all answered well, with as many vectors as it has chunks.
  predicate Joinable(entry: Entry, stored: nat, results: Results) {
    && entry.Pending?
    && (forall k :: 0 <= k < |entry.pages| ==> entry.pages[k].custom in results.vectors && entry.pages[k].custom !in results.errors)
    && stored == entry.chunkCount == |Concatenated(entry.pages, results.vectors)|
  }

  type Persist = (nat, seq<Vector>) -> Outcome

  // What the results say of a document: settled before, joined with these vectors, or not to be joined.
  datatype Verdict = Before(outcome: Outcome) | Joined(vectors: seq<Vector>) | Unjoined

  function VerdictOf(entry: Entry, stored: nat, results: Results): Verdict {
    if entry.Done? then Before(entry.outcome)
    else if Joinable(entry, stored, results) then Joined(Concatenated(entry.pages, results.vectors))
    else Unjoined
  }

  function Verdicts(entries: seq<Entry>, stored: seq<nat>, results: Results): seq<Verdict>
    requires |stored| == |entries|
  {
    seq(|entries|, d requires 0 <= d < |entries| => VerdictOf(entries[d], stored[d], results))
  }

  // What becomes of document d.
  function FinalOutcome(d: nat, verdict: Verdict, persist: Persist): Outcome {
    match verdict
    case Before(outcome) => outcome
    case Joined(vectors) => persist(d, vectors)
    case Unjoined => Failed
  }

  function FinalOutcomes(verdicts: seq<Verdict>, persist: Persist): seq<Outcome> {
    seq(|verdicts|, d requires 0 <= d < |verdicts| => FinalOutcome(d, verdicts[d], persist))
  }

  datatype Kind = KEmbedded | KSkipped | KFailed

  function KindOf(outcome: Outcome): Kind {
    match outcome
    case Embedded(_) => KEmbedded
    case Skipped(_) => KSkipped
    case Failed => KFailed
  }

  // The counted documents with an outcome of one kind.
  function Those(outcomes: seq<Outcome>, counted: set<nat>, kind: Kind): set<nat> {
    set d | d in counted && d < |outcomes| && KindOf(outcomes[d]) == kind
  }

  // The counters after some of the documents were counted, each once.
  ghost predicate Counted(c: Counts, outcomes: seq<Outcome>, counted: set<nat>) {
    && c.embedded == |Those(outcomes, counted, KEmbedded)|
    && c.skipped == |Those(outcomes, counted, KSkipped)|
    && c.failed == |Those(outcomes, counted, KFailed)|
  }

  function Count(c: Counts, outcome: Outcome): Counts {
    match outcome
    case Embedded(_) => c.(embedded := c.embedded + 1)
    case Skipped(_) => c.(skipped := c.skipped + 1)
    case Failed => c.(failed := c.failed + 1)
  }

  lemma OneMoreOf(outcomes: seq<Outcome>, counted: set<nat>, d: nat, kind: Kind)
    requires d < |outcomes| && d !in counted
    ensures |Those(outcomes, counted + {d}, kind)| == |Those(outcomes, counted, kind)| + if KindOf(outcomes[d]) == kind then 1 else 0
  {
    assert Those(outcomes, counted + {d}, kind) == Those(outcomes, counted, kind) + if KindOf(outcomes[d]) == kind then {d} else {};
  }

  lemma CountOne(c: Counts, outcomes: seq<Outcome>, counted: set<nat>, d: nat)
    requires Counted(c, outcomes, counted) && d < |outcomes| && d !in counted
    ensures Counted(Count(c, outcomes[d]), outcomes, counted + {d})
  {
    OneMoreOf(outcomes, counted, d, KEmbedded);
    OneMoreOf(outcomes, counted, d, KSkipped);
    OneMoreOf(outcomes, counted, d, KFailed);
  }

  lemma ThreeParts(e: set<nat>, s: set<nat>, f: set<nat>)
    requires e !! s && (e + s) !! f
    ensures |e + s + f| == |e| + |s| + |f|
  {
    assert |e + s| == |e| + |s| && |(e + s) + f| == |e + s| + |f|;
  }

  lemma KindsPartition(outcomes: seq<Outcome>, counted: set<nat>)
    requires forall d :: d in counted ==> d < |outcomes|
    ensures var e, s, f := Those(outcomes, counted, KEmbedded), Those(outcomes, counted, KSkipped), Those(outcomes, counted, KFailed);
      e !! s && (e + s) !! f && e + s + f == counted
  {
  }

  lemma CountsAddUp(c: Counts, outcomes: seq<Outcome>, counted: set<nat>)
    requires Counted(c, outcomes, counted) && forall d :: d in counted ==> d < |outcomes|
    ensures c.embedded + c.skipped + c.failed == |counted|
  {
    KindsPartition(outcomes, counted);
    ThreeParts(Those(outcomes, counted, KEmbedded), Those(outcomes, counted, KSkipped), Those(outcomes, counted, KFailed));
  }

  // ---------------------------------------------------------------- documents by verdict

  function SettledOnes(verdicts: seq<Verdict>, n: nat): set<nat>
    requires n <= |verdicts|
  {
    set d | 0 <= d < n && verdicts[d].Before?
  }

  function JoinedOnes(verdicts: seq<Verdict>, n: nat): set<nat>
    requires n <= |verdicts|
  {
    set d | 0 <= d < n && verdicts[d].Joined?
  }

  function UnjoinedOnes(verdicts: seq<Verdict>, n: nat): set<nat>
    requires n <= |verdicts|
  {
    set d | 0 <= d < n && verdicts[d].Unjoined?
  }

  lemma SettledStep(verdicts: seq<Verdict>, n: nat)
    requires n < |verdicts|
    ensures n !in SettledOnes(verdicts, n)
    ensures SettledOnes(verdicts, n + 1) == SettledOnes(verdicts, n) + if verdicts[n].Before? then {n} else {}
  {
  }

  lemma JoinedStep(verdicts: seq<Verdict>, n: nat)
    requires n < |verdicts|
    ensures JoinedOnes(verdicts, n + 1) == JoinedOnes(verdicts, n) + if verdicts[n].Joined? then {n} else {}
  {
  }

  lemma UnjoinedStep(verdicts: seq<Verdict>, n: nat)
    requires n < |verdicts|
    ensures n !in UnjoinedOnes(verdicts, n) && (verdicts[n].Unjoined? ==> n !in SettledOnes(verdicts, |verdicts|))
    ensures UnjoinedOnes(verdicts, n + 1) == UnjoinedOnes(verdicts, n) + if verdicts[n].Unjoined? then {n} else {}
  {
  }

  lemma AllJudged(verdicts: seq<Verdict>)
    ensures var n := |verdicts|;
      && SettledOnes(verdicts, n) + UnjoinedOnes(verdicts, n) + JoinedOnes(verdicts, n) == Indices(n)
      && (SettledOnes(verdicts, n) + UnjoinedOnes(verdicts, n)) !! JoinedOnes(verdicts, n)
  {
  }

  lemma {:induction false} IndexCount(n: nat)
    ensures |Indices(n)| == n
  {
    if n > 0 {
      IndexCount(n - 1);
      assert n - 1 !in Indices(n - 1);
    }
  }

  // How many of the first n documents are not settled.
  function PendingCount(verdicts: seq<Verdict>, n: nat): nat
    requires n <= |verdicts|
  {
    if n == 0 then 0 else PendingCount(verdicts, n - 1) + if verdicts[n - 1].Before? then 0 else 1
  }

  lemma PendingStep(verdicts: seq<Verdict>, n: nat)
    requires n < |verdicts|
    ensures PendingCount(verdicts, n + 1) == PendingCount(verdicts, n) + if verdicts[n].Before? then 0 else 1
  {
  }

  lemma SettledCount(verdicts: seq<Verdict>, n: nat)
    requires n < |verdicts|
    ensures |SettledOnes(verdicts, n + 1)| == |SettledOnes(verdicts, n)| + if verdicts[n].Before? then 1 else 0
  {
    SettledStep(verdicts, n);
    if !verdicts[n].Before? {
      assert SettledOnes(verdicts, n + 1) == SettledOnes(verdicts, n);
    }
  }

  lemma {:induction false} SettledOrPending(verdicts: seq<Verdict>, n: nat)
    requires n <= |verdicts|
    ensures |SettledOnes(verdicts, n)| + PendingCount(verdicts, n) == n
  {
    if n == 0 {
      assert SettledOnes(verdicts, 0) == {};
    } else {
      SettledOrPending(verdicts, n - 1);
      SettledCount(verdicts, n - 1);
      PendingStep(verdicts, n - 1);
    }
  }

  // _manifest_counts
  method ManifestCounts(entries: seq<Entry>, ghost verdicts: seq<Verdict>, ghost outcomes: seq<Outcome>) returns (c: Counts)
    requires |outcomes| == |entries| == |verdicts|
    requires forall d :: 0 <= d < |entries| ==> (entries[d].Done? <==> verdicts[d].Before?) && (entries[d].Done? ==> outcomes[d] == entries[d].outcome)
    ensures Counted(c, outcomes, SettledOnes(verdicts, |entries|)) && c.processed == |SettledOnes(verdicts, |entries|)|
  {
    c := Counts(0, 0, 0, 0);
    for d := 0 to |entries|
      invariant Counted(c, outcomes, SettledOnes(verdicts, d)) && c.processed == |SettledOnes(verdicts, d)|
    {
      SettledStep(verdicts, d);
      if entries[d].Done? {
        CountOne(c, outcomes, SettledOnes(verdicts, d), d);
        c := Count(c, entries[d].outcome).(processed := c.processed + 1);
      } else {
        assert SettledOnes(verdicts, d + 1) == SettledOnes(verdicts, d);
      }
    }
  }

  lemma ConcatenatedSnoc(pages: seq<PageRef>, k: nat, vectors: map<Custom, seq<Vector>>)
    requires k < |pages| && forall i :: 0 <= i <= k ==> pages[i].custom in vectors
    ensures Concatenated(pages[..k + 1], vectors) == Concatenated(pages[..k], vectors) + vectors[pages[k].custom]
  {
    assert pages[..k + 1][..k] == pages[..k];
  }

  // The vectors of one PENDING document, unless one of its pages failed or the counts do not match.
  method JoinDocument(entry: Entry, stored: nat, results: Results) returns (r: Option<seq<Vector>>)
    requires entry.Pending?
    ensures VerdictOf(entry, stored, results) == if r.Some? then Joined(r.value) else Unjoined
  {
    var vectors: seq<Vector> := [];
    for k := 0 to |entry.pages|
      invariant forall i :: 0 <= i < k ==> entry.pages[i].custom in results.vectors && entry.pages[i].custom !in results.errors
      invariant vectors == Concatenated(entry.pages[..k], results.vectors)
    {
      if entry.pages[k].custom in results.errors || entry.pages[k].custom !in results.vectors {
        return None;
      }
      ConcatenatedSnoc(entry.pages, k, results.vectors);
      vectors := vectors + results.vectors[entry.pages[k].custom];
    }
    assert entry.pages[..|entry.pages|] == entry.pages;
    return if stored == entry.chunkCount && |vectors| == stored then Some(vectors) else None;
  }

  // The vector sets to be stored, for the documents among the first n that are joined.
  ghost predicate Collected(verdicts: seq<Verdict>, n: nat, pending: map<nat, seq<Vector>>)
    requires n <= |verdicts|
  {
    && pending.Keys == JoinedOnes(verdicts, n)
    && forall d :: d in pending ==> d < |verdicts| && verdicts[d] == Joined(pending[d])
  }

  // The counters and joined vectors after the first n documents.
  ghost predicate JoinedUpTo(verdicts: seq<Verdict>, outcomes: seq<Outcome>, n: nat, c: Counts, pending: map<nat, seq<Vector>>)
    requires n <= |verdicts|
  {
    && Counted(c, outcomes, SettledOnes(verdicts, |verdicts|) + UnjoinedOnes(verdicts, n))
    && Collected(verdicts, n, pending)
    && c.processed == |SettledOnes(verdicts, |verdicts|)| + PendingCount(verdicts, n)
  }

  lemma NoneJoined(verdicts: seq<Verdict>, outcomes: seq<Outcome>, c: Counts)
    requires Counted(c, outcomes, SettledOnes(verdicts, |verdicts|)) && c.processed == |SettledOnes(verdicts, |verdicts|)|
    ensures JoinedUpTo(verdicts, outcomes, 0, c, map[])
  {
    assert UnjoinedOnes(verdicts, 0) == {} && JoinedOnes(verdicts, 0) == {};
    assert SettledOnes(verdicts, |verdicts|) + {} == SettledOnes(verdicts, |verdicts|);
  }

  lemma CollectedStep(verdicts: seq<Verdict>, n: nat, pending: map<nat, seq<Vector>>)
    requires n < |verdicts| && Collected(verdicts, n, pending)
    ensures verdicts[n].Joined? ==> Collected(verdicts, n + 1, pending[n := verdicts[n].vectors])
    ensures !verdicts[n].Joined? ==> Collected(verdicts, n + 1, pending)
  {
    JoinedStep(verdicts, n);
    if !verdicts[n].Joined? {
      assert JoinedOnes(verdicts, n + 1) == JoinedOnes(verdicts, n);
    }
  }

  lemma UnjoinedCounted(verdicts: seq<Verdict>, outcomes: seq<Outcome>, n: nat, c: Counts)
    requires n < |verdicts| == |outcomes| && Counted(c, outcomes, SettledOnes(verdicts, |verdicts|) + UnjoinedOnes(verdicts, n))
    requires verdicts[n].Unjoined? ==> outcomes[n] == Failed
    ensures Counted(if verdicts[n].Unjoined? then Count(c, Failed) else c, outcomes, SettledOnes(verdicts, |verdicts|) + UnjoinedOnes(verdicts, n + 1))
  {
    var settled, failed := SettledOnes(verdicts, |verdicts|), UnjoinedOnes(verdicts, n);
    UnjoinedStep(verdicts, n);
    if verdicts[n].Unjoined? {
      CountOne(c, outcomes, settled + failed, n);
      assert settled + failed + {n} == settled + (failed + {n});
    } else {
      assert UnjoinedOnes(verdicts, n + 1) == failed;
    }
  }

  // The counters and joined vectors after one more document.
  function Judged(verdict: Verdict, n: nat, c: Counts, pending: map<nat, seq<Vector>>): (Counts, map<nat, seq<Vector>>) {
    match verdict
    case Before(_) => (c, pending)
    case Joined(vectors) => (c.(processed := c.processed + 1), pending[n := vectors])
    case Unjoined => (Count(c, Failed).(processed := c.processed + 1), pending)
  }

  lemma JoinedOne(verdicts: seq<Verdict>, outcomes: seq<Outcome>, n: nat, c: Counts, pending: map<nat, seq<Vector>>)
    requires n < |verdicts| == |outcomes| && JoinedUpTo(verdicts, outcomes, n, c, pending)
    requires verdicts[n].Unjoined? ==> outcomes[n] == Failed
    ensures JoinedUpTo(verdicts, outcomes, n + 1, Judged(verdicts[n], n, c, pending).0, Judged(verdicts[n], n, c, pending).1)
  {
    CollectedStep(verdicts, n, pending);
    UnjoinedCounted(verdicts, outcomes, n, c);
    PendingStep(verdicts, n);
  }

  method JudgeDocument(d: nat, entry: Entry, stored: nat, results: Results, c: Counts, pending: map<nat, seq<Vector>>)
    returns (c': Counts, pending': map<nat, seq<Vector>>)
    ensures (c', pending') == Judged(VerdictOf(entry, stored, results), d, c, pending)
  {
    if entry.Done? {
      return c, pending;
    }
    var vectors := JoinDocument(entry, stored, results);
    if vectors.Some? {
      return c.(processed := c.processed + 1), pending[d := vectors.value];
    }
    return Count(c, Failed).(processed := c.processed + 1), pending;
  }

  // The first loop of finalize_voyage_batch: vectors are joined, documents that cannot be joined are counted.
  method JoinDocuments(entries: seq<Entry>, stored: seq<nat>, results: Results, start: Counts, ghost verdicts: seq<Verdict>, ghost outcomes: seq<Outcome>)
    returns (c: Counts, pending: map<nat, seq<Vector>>)
    requires |stored| == |entries| == |outcomes| && verdicts == Verdicts(entries, stored, results)
    requires Counted(start, outcomes, SettledOnes(verdicts, |verdicts|)) && start.processed == |SettledOnes(verdicts, |verdicts|)|
    requires forall d :: 0 <= d < |verdicts| && verdicts[d].Unjoined? ==> outcomes[d] == Failed
    ensures JoinedUpTo(verdicts, outcomes, |verdicts|, c, pending)
  {
    c, pending := start, map[];
    NoneJoined(verdicts, outcomes, c);
    for d := 0 to |entries|
      invariant JoinedUpTo(verdicts, outcomes, d, c, pending)
    {
      JoinedOne(verdicts, outcomes, d, c, pending);
      c, pending := JudgeDocument(d, entries[d], stored[d], results, c, pending);
    }
  }

  // The stored documents are counted in whatever order they complete.
  method CountStored(pending: map<nat, seq<Vector>>, persist: Persist, start: Counts, ghost outcomes: seq<Outcome>, ghost counted: set<nat>)
    returns (c: Counts)
    requires Counted(start, outcomes, counted) && counted !! pending.Keys
    requires forall d :: d in pending ==> d < |outcomes| && outcomes[d] == persist(d, pending[d])
    ensures Counted(c, outcomes, counted + pending.Keys) && c.processed == start.processed
  {
    c := start;
    var todo := pending.Keys;
    assert counted + (pending.Keys - todo) == counted;
    while todo != {}
      invariant todo <= pending.Keys && Counted(c, outcomes, counted + (pending.Keys - todo)) && c.processed == start.processed
      decreases todo
    {
      var d :| d in todo;
      CountOne(c, outcomes, counted + (pending.Keys - todo), d);
      assert counted + (pending.Keys - (todo - {d})) == counted + (pending.Keys - todo) + {d};
      c := Count(c, persist(d, pending[d]));
      todo := todo - {d};
    }
    assert counted + (pending.Keys - {}) == counted + pending.Keys;
  }

  // ---------------------------------------------------------------- what becomes of each document

  predicate AllAnswered(pages: seq<PageRef>, results: Results) {
    forall k :: 0 <= k < |pages| ==> pages[k].custom in results.vectors && pages[k].custom !in results.errors
  }

  // The number of vectors that the pages were answered with.
  function VectorCount(pages: seq<PageRef>, vectors: map<Custom, seq<Vector>>): nat
    requires forall k :: 0 <= k < |pages| ==> pages[k].custom in vectors
  {
    if pages == [] then 0 else VectorCount(pages[..|pages| - 1], vectors) + |vectors[pages[|pages| - 1].custom]|
  }

  lemma {:induction false} ConcatenatedCount(pages: seq<PageRef>, vectors: map<Custom, seq<Vector>>)
    requires forall k :: 0 <= k < |pages| ==> pages[k].custom in vectors
    ensures |Concatenated(pages, vectors)| == VectorCount(pages, vectors)
  {
    if pages != [] {
      ConcatenatedCount(pages[..|pages| - 1], vectors);
    }
  }

  // A document that was settled keeps its outcome.  One that was PENDING is stored, with the outcome of storing it,
  // exactly if all its pages were answered and gave one vector for each of its chunks; otherwise it has failed.
  predicate Accounted(d: nat, entry: Entry, stored: nat, results: Results, persist: Persist, saved: map<nat, seq<Vector>>, outcome: Outcome) {
    match entry
    case Done(settled) => d !in saved && outcome == settled
    case Pending(chunkCount, pages) =>
      && (d in saved <==> AllAnswered(pages, results) && VectorCount(pages, results.vectors) == chunkCount == stored)
      && (d in saved ==> |saved[d]| == chunkCount && outcome == persist(d, saved[d]))
      && (d !in saved ==> outcome == Failed)
  }

  // The counters are the numbers of documents with each outcome.
  ghost predicate Tally(c: Counts, outcomes: seq<Outcome>) {
    && c.processed == |outcomes|
    && c.embedded == |set d | 0 <= d < |outcomes| && outcomes[d].Embedded?|
    && c.skipped == |set d | 0 <= d < |outcomes| && outcomes[d].Skipped?|
    && c.failed == |set d | 0 <= d < |outcomes| && outcomes[d].Failed?|
  }

  lemma CountedIsTally(c: Counts, outcomes: seq<Outcome>)
    requires Counted(c, outcomes, Indices(|outcomes|)) && c.processed == |outcomes|
    ensures Tally(c, outcomes)
  {
    var all := Indices(|outcomes|);
    assert Those(outcomes, all, KEmbedded) == set d | 0 <= d < |outcomes| && outcomes[d].Embedded?;
    assert Those(outcomes, all, KSkipped) == set d | 0 <= d < |outcomes| && outcomes[d].Skipped?;
    assert Those(outcomes, all, KFailed) == set d | 0 <= d < |outcomes| && outcomes[d].Failed?;
  }

  lemma VerdictIsAccounted(d: nat, entry: Entry, stored: nat, results: Results, persist: Persist, saved: map<nat, seq<Vector>>)
    requires var verdict := VerdictOf(entry, stored, results);
      (d in saved <==> verdict.Joined?) && (verdict.Joined? ==> saved[d] == verdict.vectors)
    ensures Accounted(d, entry, stored, results, persist, saved, FinalOutcome(d, VerdictOf(entry, stored, results), persist))
  {
    if entry.Pending? && AllAnswered(entry.pages, results) {
      ConcatenatedCount(entry.pages, results.vectors);
    }
  }

  lemma SavedAt(entries: seq<Entry>, stored: seq<nat>, results: Results, saved: map<nat, seq<Vector>>, d: nat)
    requires |stored| == |entries| && d < |entries| && Collected(Verdicts(entries, stored, results), |entries|, saved)
    ensures var verdict := VerdictOf(entries[d], stored[d], results);
      (d in saved <==> verdict.Joined?) && (verdict.Joined? ==> saved[d] == verdict.vectors)
  {
    var verdicts := Verdicts(entries, stored, results);
    assert verdicts[d] == VerdictOf(entries[d], stored[d], results);
    assert d in saved <==> d in JoinedOnes(verdicts, |entries|);
  }

  lemma AllAccounted(entries: seq<Entry>, stored: seq<nat>, results: Results, persist: Persist, saved: map<nat, seq<Vector>>, d: nat)
    requires |stored| == |entries| && d < |entries| && Collected(Verdicts(entries, stored, results), |entries|, saved)
    ensures Accounted(d, entries[d], stored[d], results, persist, saved, FinalOutcomes(Verdicts(entries, stored, results), persist)[d])
  {
    SavedAt(entries, stored, results, saved, d);
    VerdictIsAccounted(d, entries[d], stored[d], results, persist, saved);
  }

  // finalize_voyage_batch, once the result files are read: what is stored, and the counters.
  method Finalize(entries: seq<Entry>, stored: seq<nat>, results: Results, persist: Persist)
    returns (c: Counts, saved: map<nat, seq<Vector>>, ghost outcomes: seq<Outcome>)
    requires |stored| == |entries|
    ensures Collected(Verdicts(entries, stored, results), |entries|, saved)
    ensures c.processed == c.embedded + c.skipped + c.failed == |entries|
    ensures |outcomes| == |entries| && Tally(c, outcomes)
    ensures forall d :: 0 <= d < |entries| ==> Accounted(d, entries[d], stored[d], results, persist, saved, outcomes[d])
  {
    ghost var verdicts := Verdicts(entries, stored, results);
    outcomes := FinalOutcomes(verdicts, persist);
    c := ManifestCounts(entries, verdicts, outcomes);
    c, saved := JoinDocuments(entries, stored, results, c, verdicts, outcomes);
    AllJudged(verdicts);
    c := CountStored(saved, persist, c, outcomes, SettledOnes(verdicts, |entries|) + UnjoinedOnes(verdicts, |entries|));
    SettledOrPending(verdicts, |entries|);
    CountsAddUp(c, outcomes, Indices(|entries|));
    IndexCount(|entries|);
    CountedIsTally(c, outcomes);
    forall d | 0 <= d < |entries| ensures Accounted(d, entries[d], stored[d], results, persist, saved, outcomes[d]) {
      AllAccounted(entries, stored, results, persist, saved, d);
    }
  }

  // ---------------------------------------------------------------- the whole way

  // The provider answered this page: one row for each input, in any order, with the embedding of that input.
  predicate AnswersPage(line: ResultLine, request: Request, embed: string -> Vector) {
    && line.RAnswer? && line.custom == request.custom && line.modelOk && line.outcome.Data?
    && VoyageJoin.Complete(line.outcome.rows, |request.input|)
    && forall row :: row in line.outcome.rows ==> 0 <= row.index < |request.input| && row.embedding == Some(embed(request.input[row.index]))
  }

  // Every request has an answer among the lines, in any order.
  predicate AnswersAll(lines: seq<ResultLine>, requests: seq<Request>, embed: string -> Vector) {
    forall k :: 0 <= k < |requests| ==> exists i :: 0 <= i < |lines| && AnswersPage(lines[i], requests[k], embed)
  }

  lemma PageRead(line: ResultLine, request: Request, embed: string -> Vector, results: Results, dimensions: nat)
    requires AnswersPage(line, request, embed) && LineRead(line, results, dimensions) && forall text :: |embed(text)| == dimensions
    ensures request.custom in results.vectors && request.custom !in results.errors
    ensures results.vectors[request.custom] == MapEmbed(request.input, embed)
  {
    var rows := line.outcome.rows;
    forall i | 0 <= i < |rows| ensures VoyageJoin.VectorAt(rows, i) == embed(request.input[i]) {
      VoyageJoin.VectorIsOfRow(rows, i);
    }
    assert GoodRows(rows, dimensions);
    assert PageVectors(rows) == MapEmbed(request.input, embed);
  }

  lemma {:induction false} RequestListed(prepared: seq<Preparation>, size: nat, d: nat, request: Request)
    requires size >= 1 && d < |prepared| && request in DocumentRequests(d, prepared[d], size)
    ensures request in AllRequests(prepared, size)
  {
    if d < |prepared| - 1 {
      RequestListed(prepared[..|prepared| - 1], size, d, request);
    }
  }

  lemma MapEmbedAppend(a: seq<string>, b: seq<string>, embed: string -> Vector)
    ensures MapEmbed(a + b, embed) == MapEmbed(a, embed) + MapEmbed(b, embed)
  {
  }

  lemma InputsSnoc(chunks: seq<string>, pages: seq<PageRef>)
    requires InRange(pages, |chunks|) && pages != []
    ensures var front, last := pages[..|pages| - 1], pages[|pages| - 1];
      InRange(front, |chunks|) && PageInputs(chunks, pages) == PageInputs(chunks, front) + [chunks[last.start..last.end]]
  {
  }

  // Vectors that belong to the pages are, put together, those of the chunks that the pages cover.
  lemma {:induction false} ConcatenatedEmbeds(chunks: seq<string>, pages: seq<PageRef>, vectors: map<Custom, seq<Vector>>, embed: string -> Vector)
    requires InRange(pages, |chunks|)
    requires forall k :: 0 <= k < |pages| ==>
      pages[k].custom in vectors && vectors[pages[k].custom] == MapEmbed(chunks[pages[k].start..pages[k].end], embed)
    ensures Concatenated(pages, vectors) == MapEmbed(VoyageBatch.Flatten(PageInputs(chunks, pages)), embed)
  {
    if pages != [] {
      var front, last := pages[..|pages| - 1], pages[|pages| - 1];
      InputsSnoc(chunks, pages);
      ConcatenatedEmbeds(chunks, front, vectors, embed);
      VoyageBatch.FlattenSnoc(PageInputs(chunks, front), chunks[last.start..last.end]);
      MapEmbedAppend(VoyageBatch.Flatten(PageInputs(chunks, front)), chunks[last.start..last.end], embed);
    }
  }

  lemma PageOfDocument(prepared: seq<Preparation>, size: nat, d: nat, k: nat, lines: seq<ResultLine>, results: Results, embed: string -> Vector, dimensions: nat)
    requires size >= 1 && d < |prepared| && prepared[d].Ready? && AnswersAll(lines, AllRequests(prepared, size), embed)
    requires (forall i :: 0 <= i < |lines| ==> LineRead(lines[i], results, dimensions)) && forall text :: |embed(text)| == dimensions
    requires k < |Pages(d, 0, 0, |prepared[d].chunks|, size)|
    ensures var chunks := prepared[d].chunks; var page := Pages(d, 0, 0, |chunks|, size)[k];
      && page.start <= page.end <= |chunks| && page.custom in results.vectors && page.custom !in results.errors
      && results.vectors[page.custom] == MapEmbed(chunks[page.start..page.end], embed)
  {
    var chunks := prepared[d].chunks;
    PagesCover(d, 0, 0, chunks, size);
    var requests := DocumentRequests(d, prepared[d], size);
    RequestListed(prepared, size, d, requests[k]);
    var all := AllRequests(prepared, size);
    var j :| 0 <= j < |all| && all[j] == requests[k];
    var i :| 0 <= i < |lines| && AnswersPage(lines[i], all[j], embed);
    PageRead(lines[i], all[j], embed, results, dimensions);
  }

  // When every page is answered correctly, whatever the order of the answers and of their rows, every document
  // that was ready is joined, and its vectors are the embeddings of its own chunks.
  lemma AnswersReachTheirChunks(prepared: seq<Preparation>, size: nat, d: nat, lines: seq<ResultLine>, results: Results, embed: string -> Vector, dimensions: nat)
    requires size >= 1 && d < |prepared| && prepared[d].Ready? && AnswersAll(lines, AllRequests(prepared, size), embed)
    requires (forall i :: 0 <= i < |lines| ==> LineRead(lines[i], results, dimensions)) && forall text :: |embed(text)| == dimensions
    ensures var chunks := prepared[d].chunks;
      VerdictOf(EntryFor(d, prepared[d], size), |chunks|, results) == Joined(MapEmbed(chunks, embed))
  {
    var chunks := prepared[d].chunks;
    var pages := Pages(d, 0, 0, |chunks|, size);
    PagesCover(d, 0, 0, chunks, size);
    forall k | 0 <= k < |pages|
      ensures pages[k].custom in results.vectors && pages[k].custom !in results.errors
      ensures results.vectors[pages[k].custom] == MapEmbed(chunks[pages[k].start..pages[k].end], embed)
    {
      PageOfDocument(prepared, size, d, k, lines, results, embed, dimensions);
    }
    ConcatenatedEmbeds(chunks, pages, results.vectors, embed);
    assert chunks[0..] == chunks;
  }

  function ChunkCounts(prepared: seq<Preparation>): seq<nat> {
    seq(|prepared|, d requires 0 <= d < |prepared| => match prepared[d] case Ready(chunks) => |chunks| case Settled(_) => 0)
  }

  // A document that was ready has the outcome of storing its embeddings, the others keep theirs.
  function HostedOutcomes(prepared: seq<Preparation>, persist: Persist, embed: string -> Vector): seq<Outcome> {
    seq(|prepared|, d requires 0 <= d < |prepared| =>
      match prepared[d] case Ready(chunks) => persist(d, MapEmbed(chunks, embed)) case Settled(outcome) => outcome)
  }

  lemma OutcomeIs(entries: seq<Entry>, prepared: seq<Preparation>, size: nat, results: Results, persist: Persist, saved: map<nat, seq<Vector>>,
                  d: nat, outcome: Outcome, embed: string -> Vector)
    requires size >= 1 && d < |prepared| && EntriesFor(entries, prepared, size)
    requires Accounted(d, entries[d], ChunkCounts(prepared)[d], results, persist, saved, outcome)
    requires prepared[d].Ready? ==> d in saved && saved[d] == MapEmbed(prepared[d].chunks, embed)
    ensures outcome == HostedOutcomes(prepared, persist, embed)[d]
  {
  }

  // Preparing, having all pages answered in any order, reading the answers and finalizing stores for every
  // ready document what the synchronous path stores: the embedding of each of its chunks, in order.
  method RunHosted(prepared: seq<Preparation>, size: nat, lines: seq<ResultLine>, dimensions: nat, persist: Persist, ghost embed: string -> Vector)
    returns (r: Result<Counts, HostedError>, saved: map<nat, seq<Vector>>)
    requires size >= 1 && AnswersAll(lines, AllRequests(prepared, size), embed) && forall text :: |embed(text)| == dimensions
    ensures r.Ok? <==> |AllRequests(prepared, size)| <= VoyageBatch.MAX_REQUESTS && RInvalid !in lines && AnsweredOnce(lines)
    ensures r.Ok? ==> Tally(r.value, HostedOutcomes(prepared, persist, embed))
    ensures r.Ok? ==> r.value.processed == r.value.embedded + r.value.skipped + r.value.failed == |prepared|
    ensures r.Ok? ==> forall d :: 0 <= d < |prepared| ==> (d in saved <==> prepared[d].Ready?)
    ensures r.Ok? ==> forall d :: 0 <= d < |prepared| && prepared[d].Ready? ==> saved[d] == MapEmbed(prepared[d].chunks, embed)
  {
    saved := map[];
    var hosted := PrepareVoyageBatch(prepared, size);
    if hosted.Err? {
      return Err(hosted.error), saved;
    }
    var results := ReadVoyageResults(lines, dimensions);
    if results.Err? {
      return Err(results.error), saved;
    }
    var counts;
    ghost var outcomes;
    counts, saved, outcomes := Finalize(hosted.value.entries, ChunkCounts(prepared), results.value, persist);
    forall d | 0 <= d < |prepared|
      ensures d in saved <==> prepared[d].Ready?
      ensures prepared[d].Ready? ==> saved[d] == MapEmbed(prepared[d].chunks, embed)
    {
      SavedIs(hosted.value.entries, prepared, size, results.value, saved, d);
      if prepared[d].Ready? {
        AnswersReachTheirChunks(prepared, size, d, lines, results.value, embed, dimensions);
      }
    }
    forall d | 0 <= d < |prepared| ensures outcomes[d] == HostedOutcomes(prepared, persist, embed)[d] {
      OutcomeIs(hosted.value.entries, prepared, size, results.value, persist, saved, d, outcomes[d], embed);
    }
    assert outcomes == HostedOutcomes(prepared, persist, embed);
    return Ok(counts), saved;
  }

  lemma SavedIs(entries: seq<Entry>, prepared: seq<Preparation>, size: nat, results: Results, saved: map<nat, seq<Vector>>, d: nat)
    requires size >= 1 && d < |prepared| && EntriesFor(entries, prepared, size)
    requires Collected(Verdicts(entries, ChunkCounts(prepared), results), |entries|, saved)
    ensures var verdict := VerdictOf(EntryFor(d, prepared[d], size), if prepared[d].Ready? then |prepared[d].chunks| else 0, results);
      (d in saved <==> verdict.Joined?) && (verdict.Joined? ==> saved[d] == verdict.vectors)
  {
    SavedAt(entries, ChunkCounts(prepared), results, saved, d);
  }
}
