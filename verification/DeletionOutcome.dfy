/**
  What a collection deletion leaves behind.

  `OutlookOf(s, j)` is everything that remains once job j is done.  Each step of the job leaves the outlook
  as it is, so that a run resumed from any point ends in the same place.
 */
module DeletionOutcome {
  import opened Common
  import opened ArtifactState
  import opened DeletionSpec
  import opened DeletionSafety

  datatype Outlook = Outlook(
    collections: map<Id, Collection>,
    items: map<Id, Item>,
    artifacts: map<Id, Id>,
    itemLinks: map<Id, ItemLink>,
    collectionLinks: map<Id, Id>,
    lineage: set<(Id, Id)>,
    selections: map<Id, Id>,
    selected: set<(Id, Id)>,
    runs: map<Id, Run>,
    blobs: map<Id, Blob>,
    doomed: map<Id, Doomed>,
    objects: map<Location, string>)

  // The artifacts that belong to collection c.
  function ArtifactsOf(db: Database, c: Id): set<Id> {
    ArtifactsOfItems(db.itemLinks, ItemsOf(db.items, c)) + ContainersOf(db.collectionLinks, c)
  }

  function BlobsFor(blobs: map<Id, Blob>, artifacts: map<Id, Id>): map<Id, Blob> {
    map b | b in blobs && b in artifacts.Values :: blobs[b]
  }

  // The object is scheduled by job j, or is that of a blob which only the collection's artifacts refer to.
  predicate Lost(blobs: map<Id, Blob>, doomed: map<Id, Doomed>, kept: map<Id, Id>, j: Id, p: Location) {
    || (p.key in doomed && doomed[p.key].job == j && doomed[p.key].place == p)
    || (p.key in blobs && blobs[p.key].place == p && p.key !in kept.Values)
  }

  function ObjectsLeft(objects: map<Location, string>, blobs: map<Id, Blob>, doomed: map<Id, Doomed>, kept: map<Id, Id>, j: Id): map<Location, string> {
    map p | p in objects && !Lost(blobs, doomed, kept, j, p) :: objects[p]
  }

  function SelectionsLeft(selections: map<Id, Id>, c: Id): map<Id, Id> {
    map l | l in selections && selections[l] != c :: selections[l]
  }

  function SelectedLeft(selected: set<(Id, Id)>, selections: map<Id, Id>, items: map<Id, Item>, c: Id): set<(Id, Id)> {
    set p | p in selected && !(p.0 in selections && selections[p.0] == c) && p.1 !in ItemsOf(items, c)
  }

  function RunsLeft(runs: map<Id, Run>, c: Id): map<Id, Run> {
    map r | r in runs && runs[r].collection != c :: runs[r]
  }

  // What is left of the rows of other collections, and of the blobs and objects, once collection c is gone and
  // the rows of job j are processed.
  function OutlookFor(s: State, c: Id, j: Id): Outlook {
    var gone := ArtifactsOf(s.db, c);
    Outlook(
      Keep(s.db.collections, {c}),
      Keep(s.db.items, ItemsOf(s.db.items, c)),
      Keep(s.db.artifacts, gone),
      Keep(s.db.itemLinks, gone),
      Keep(s.db.collectionLinks, gone),
      KeepPairs(s.db.lineage, gone),
      SelectionsLeft(s.db.selections, c),
      SelectedLeft(s.db.selected, s.db.selections, s.db.items, c),
      RunsLeft(s.db.runs, c),
      BlobsFor(s.db.blobs, Keep(s.db.artifacts, gone)),
      Keep(s.db.doomed, RowsOf(s.db.doomed, j)),
      ObjectsLeft(s.objects, s.db.blobs, s.db.doomed, Keep(s.db.artifacts, gone), j))
  }

  function OutlookOf(s: State, j: Id): Outlook
    requires j in s.db.jobs
  {
    OutlookFor(s, s.db.jobs[j].collection, j)
  }

  // ---------------------------------------------------------------- removing artifacts of the collection

  lemma KeepTwice<V>(m: map<Id, V>, a: set<Id>, b: set<Id>)
    requires a <= b
    ensures Keep(Keep(m, a), b - a) == Keep(m, b) == Keep(Keep(m, a), b)
  {
  }

  lemma KeepShrinks(artifacts: map<Id, Id>, a: set<Id>, b: set<Id>)
    requires a <= b
    ensures Keep(artifacts, b).Values <= Keep(artifacts, a).Values
  {
    forall v | v in Keep(artifacts, b).Values ensures v in Keep(artifacts, a).Values {
      var k :| k in Keep(artifacts, b) && Keep(artifacts, b)[k] == v;
      assert Keep(artifacts, a)[k] == v;
    }
  }

  lemma RemovalLosesNothing(blobs: map<Id, Blob>, doomed: map<Id, Doomed>, kept: map<Id, Id>, j: Id, orphans: set<Id>, p: Location)
    requires orphans <= blobs.Keys && orphans !! kept.Values && doomed.Keys !! blobs.Keys
    requires forall b :: b in blobs ==> blobs[b].place.key == b
    ensures Lost(Keep(blobs, orphans), doomed + Scheduled(blobs, j, orphans), kept, j, p) == Lost(blobs, doomed, kept, j, p)
  {
  }

  lemma RemovalKeepsRows(blobs: map<Id, Blob>, doomed: map<Id, Doomed>, j: Id, orphans: set<Id>)
    requires doomed.Keys !! blobs.Keys
    ensures var doomed' := doomed + Scheduled(blobs, j, orphans); Keep(doomed', RowsOf(doomed', j)) == Keep(doomed, RowsOf(doomed, j))
  {
  }

  lemma RemovalKeepsBlobsLeft(blobs: map<Id, Blob>, kept: map<Id, Id>, orphans: set<Id>)
    requires orphans !! kept.Values
    ensures BlobsFor(Keep(blobs, orphans), kept) == BlobsFor(blobs, kept)
  {
  }

  // Unlinking orphans changes neither the blobs nor the objects that are left in the end.
  lemma RemovalKeepsStorageLeft(blobs: map<Id, Blob>, doomed: map<Id, Doomed>, objects: map<Location, string>, kept: map<Id, Id>, j: Id, orphans: set<Id>)
    requires ObjectsOk(blobs, doomed, objects) && orphans <= blobs.Keys && orphans !! kept.Values
    ensures var blobs', doomed' := Keep(blobs, orphans), doomed + Scheduled(blobs, j, orphans);
      && BlobsFor(blobs', kept) == BlobsFor(blobs, kept)
      && Keep(doomed', RowsOf(doomed', j)) == Keep(doomed, RowsOf(doomed, j))
      && ObjectsLeft(objects, blobs', doomed', kept, j) == ObjectsLeft(objects, blobs, doomed, kept, j)
  {
    RemovalKeepsRows(blobs, doomed, j, orphans);
    RemovalKeepsBlobsLeft(blobs, kept, orphans);
    forall p ensures Lost(Keep(blobs, orphans), doomed + Scheduled(blobs, j, orphans), kept, j, p) == Lost(blobs, doomed, kept, j, p) {
      RemovalLosesNothing(blobs, doomed, kept, j, orphans, p);
    }
  }

  lemma RemovedLinks(itemLinks: map<Id, ItemLink>, collectionLinks: map<Id, Id>, dead: set<Id>, items: set<Id>, c: Id)
    ensures ArtifactsOfItems(Keep(itemLinks, dead), items) == ArtifactsOfItems(itemLinks, items) - dead
    ensures ContainersOf(Keep(collectionLinks, dead), c) == ContainersOf(collectionLinks, c) - dead
  {
  }

  lemma RemovedArtifactsOf(db: Database, j: Id, dead: set<Id>, c: Id)
    requires j in db.jobs
    ensures ArtifactsOf(WithoutArtifacts(db, j, dead), c) == ArtifactsOf(db, c) - dead
  {
    var items := ItemsOf(db.items, c);
    RemovedLinks(db.itemLinks, db.collectionLinks, dead, items, c);
    var x, y := ArtifactsOfItems(db.itemLinks, items), ContainersOf(db.collectionLinks, c);
    assert (x - dead) + (y - dead) == (x + y) - dead;
  }

  lemma KeepPairsTwice(pairs: set<(Id, Id)>, a: set<Id>, b: set<Id>)
    requires a <= b
    ensures KeepPairs(KeepPairs(pairs, a), b - a) == KeepPairs(pairs, b)
  {
  }

  lemma OrphansAreNotKept(artifacts: map<Id, Id>, blobs: map<Id, Blob>, dead: set<Id>, gone: set<Id>)
    requires dead <= gone
    ensures Orphans(artifacts, blobs, dead) <= blobs.Keys && Orphans(artifacts, blobs, dead) !! Keep(artifacts, gone).Values
  {
    KeepShrinks(artifacts, dead, gone);
  }

  lemma RemovalKeepsOutlook(s: State, c: Id, j: Id, dead: set<Id>)
    requires Consistent(s) && j in s.db.jobs && dead <= ArtifactsOf(s.db, c)
    ensures OutlookFor(Removed(s, j, dead), c, j) == OutlookFor(s, c, j)
  {
    var gone := ArtifactsOf(s.db, c);
    RemovedArtifactsOf(s.db, j, dead, c);
    KeepTwice(s.db.artifacts, dead, gone);
    KeepTwice(s.db.itemLinks, dead, gone);
    KeepTwice(s.db.collectionLinks, dead, gone);
    KeepPairsTwice(s.db.lineage, dead, gone);
    OrphansAreNotKept(s.db.artifacts, s.db.blobs, dead, gone);
    assert Holds(Objects, s);
    RemovalKeepsStorageLeft(s.db.blobs, s.db.doomed, s.objects, Keep(s.db.artifacts, gone), j, Orphans(s.db.artifacts, s.db.blobs, dead));
  }

  lemma ItemsKeepOutlook(s: State, c: Id, j: Id, batch: set<Id>)
    requires batch <= ItemsOf(s.db.items, c) && ArtifactsOfItems(s.db.itemLinks, batch) == {}
    ensures OutlookFor(WithoutItems(s, batch), c, j) == OutlookFor(s, c, j)
  {
    var s' := WithoutItems(s, batch);
    var items := ItemsOf(s.db.items, c);
    assert ItemsOf(s'.db.items, c) == items - batch;
    KeepTwice(s.db.items, batch, items);
    assert ArtifactsOfItems(s.db.itemLinks, items - batch) == ArtifactsOfItems(s.db.itemLinks, items) by {
      forall a | a in s.db.itemLinks ensures s.db.itemLinks[a].item !in batch {
        assert a !in ArtifactsOfItems(s.db.itemLinks, batch);
      }
    }
    assert SelectedLeft(s'.db.selected, s.db.selections, s'.db.items, c) == SelectedLeft(s.db.selected, s.db.selections, s.db.items, c);
  }

  lemma CollectionKeepsOutlook(s: State, c: Id, j: Id)
    requires Consistent(s)
    ensures OutlookFor(WithoutCollection(s, c), c, j) == OutlookFor(s, c, j)
  {
    var s' := WithoutCollection(s, c);
    assert Keep(s'.db.collections, {c}) == Keep(s.db.collections, {c});
    assert SelectionsLeft(s'.db.selections, c) == SelectionsLeft(s.db.selections, c);
    assert RunsLeft(s'.db.runs, c) == RunsLeft(s.db.runs, c);
    assert SelectedLeft(s'.db.selected, s'.db.selections, s.db.items, c) == SelectedLeft(s.db.selected, s.db.selections, s.db.items, c);
  }

  lemma JobKeepsOutlook(s: State, c: Id, j: Id, k: Id, job: Job)
    ensures OutlookFor(SetJob(s, k, job), c, j) == OutlookFor(s, c, j)
  {
  }

  lemma StatusKeepsOutlook(s: State, c: Id, j: Id, status: JobStatus)
    requires j in s.db.jobs
    ensures var s' := WithJobStatus(s, j, status);
      && OutlookFor(s', c, j) == OutlookFor(s, c, j)
      && j in s'.db.jobs && s'.db.jobs[j].collection == s.db.jobs[j].collection
  {
    JobKeepsOutlook(s, c, j, j, s.db.jobs[j].(status := status));
  }

  // ---------------------------------------------------------------- the steps of job j

  lemma ValidateKeepsOutlook(s: State, j: Id)
    requires j in s.db.jobs
    ensures j in Validate(s, j).db.jobs && OutlookOf(Validate(s, j), j) == OutlookOf(s, j)
  {
  }

  lemma UnparentedItems(s: State, c: Id, j: Id)
    ensures OutlookFor(s.(db := s.db.(items := Unparented(s.db.items, c))), c, j) == OutlookFor(s, c, j)
  {
    assert ItemsOf(Unparented(s.db.items, c), c) == ItemsOf(s.db.items, c);
    assert Keep(Unparented(s.db.items, c), ItemsOf(s.db.items, c)) == Keep(s.db.items, ItemsOf(s.db.items, c));
  }

  lemma PrepareKeepsOutlook(s: State, j: Id)
    requires j in s.db.jobs
    ensures j in Prepare(s, j).db.jobs && OutlookOf(Prepare(s, j), j) == OutlookOf(s, j)
  {
    UnparentedItems(s, s.db.jobs[j].collection, j);
    var s1 := s.(db := s.db.(items := Unparented(s.db.items, s.db.jobs[j].collection)));
    ValidateKeepsOutlook(s1, j);
    JobKeepsOutlook(s1, s.db.jobs[j].collection, j, j, s.db.jobs[j].(status := DeletingRows));
  }

  lemma ItemBatchKeepsOutlook(s: State, j: Id, batch: set<Id>)
    requires Consistent(s) && j in s.db.jobs
    ensures j in ItemBatch(s, j, batch).db.jobs && OutlookOf(ItemBatch(s, j, batch), j) == OutlookOf(s, j)
  {
    if CanDeleteItems(s.db, j, batch) {
      var c := s.db.jobs[j].collection;
      var dead := ArtifactsOfItems(s.db.itemLinks, batch);
      RemovalKeepsOutlook(s, c, j, dead);
      var s1 := Removed(s, j, dead);
      assert ArtifactsOfItems(s1.db.itemLinks, batch) == {};
      ItemsKeepOutlook(s1, c, j, batch);
    }
  }

  lemma WithoutRecordKeepsOutlook(s: State, j: Id, c: Id)
    requires Consistent(s) && j in s.db.jobs
    ensures OutlookFor(WithoutRecord(s, j, c), c, j) == OutlookFor(s, c, j)
  {
    var dead := ContainersOf(s.db.collectionLinks, c);
    RemovalKeepsOutlook(s, c, j, dead);
    RemovalKeeps(s, j, dead);
    CollectionKeepsOutlook(Removed(s, j, dead), c, j);
  }

  lemma RecordKeepsOutlook(s: State, j: Id)
    requires Consistent(s) && j in s.db.jobs
    ensures j in Record(s, j).db.jobs && OutlookOf(Record(s, j), j) == OutlookOf(s, j)
  {
    var c := s.db.jobs[j].collection;
    if RecordError(s.db, j) == None {
      if c in s.db.collections {
        WithoutRecordKeepsOutlook(s, j, c);
        StatusKeepsOutlook(WithoutRecord(s, j, c), c, j, DeletingBlobs);
      } else {
        StatusKeepsOutlook(s, c, j, DeletingBlobs);
      }
    }
  }

  lemma ObjectsGoneKeepOutlook(s: State, j: Id, batch: set<Id>)
    requires j in s.db.jobs && batch <= PendingOf(s.db.doomed, j) && Consistent(s)
    ensures OutlookOf(InterruptedBlobBatch(s, j, batch), j) == OutlookOf(s, j)
  {
    assert Holds(Objects, s);
    var kept := Keep(s.db.artifacts, ArtifactsOf(s.db, s.db.jobs[j].collection));
    var objects' := ObjectsWithout(s.objects, s.db.doomed, batch);
    assert ObjectsLeft(objects', s.db.blobs, s.db.doomed, kept, j) == ObjectsLeft(s.objects, s.db.blobs, s.db.doomed, kept, j);
  }

  lemma MarkedKeepsLost(blobs: map<Id, Blob>, doomed: map<Id, Doomed>, kept: map<Id, Id>, j: Id, batch: set<Id>, objects: map<Location, string>)
    requires batch <= PendingOf(doomed, j)
    ensures Keep(Marked(doomed, batch), RowsOf(Marked(doomed, batch), j)) == Keep(doomed, RowsOf(doomed, j))
    ensures ObjectsLeft(objects, blobs, Marked(doomed, batch), kept, j) == ObjectsLeft(objects, blobs, doomed, kept, j)
  {
    assert RowsOf(Marked(doomed, batch), j) == RowsOf(doomed, j);
    forall p ensures Lost(blobs, Marked(doomed, batch), kept, j, p) == Lost(blobs, doomed, kept, j, p) {
    }
  }

  lemma BlobBatchKeepsOutlook(s: State, j: Id, batch: set<Id>)
    requires j in s.db.jobs && Consistent(s)
    ensures j in BlobBatch(s, j, batch).db.jobs && OutlookOf(BlobBatch(s, j, batch), j) == OutlookOf(s, j)
  {
    if batch <= PendingOf(s.db.doomed, j) {
      ObjectsGoneKeepOutlook(s, j, batch);
      var kept := Keep(s.db.artifacts, ArtifactsOf(s.db, s.db.jobs[j].collection));
      MarkedKeepsLost(s.db.blobs, s.db.doomed, kept, j, batch, ObjectsWithout(s.objects, s.db.doomed, batch));
    }
  }

  lemma CompleteKeepsOutlook(s: State, j: Id)
    requires j in s.db.jobs && Consistent(s)
    ensures j in Complete(s, j).db.jobs && OutlookOf(Complete(s, j), j) == OutlookOf(s, j)
  {
    if PendingOf(s.db.doomed, j) == {} {
      assert Holds(Objects, s);
      var rows' := Keep(s.db.doomed, RowsOf(s.db.doomed, j));
      assert Keep(rows', RowsOf(rows', j)) == rows';
      var kept := Keep(s.db.artifacts, ArtifactsOf(s.db, s.db.jobs[j].collection));
      forall p | p in s.objects ensures Lost(s.db.blobs, rows', kept, j, p) == Lost(s.db.blobs, s.db.doomed, kept, j, p) {
        assert p.key !in PendingOf(s.db.doomed, j);
      }
      assert ObjectsLeft(s.objects, s.db.blobs, rows', kept, j) == ObjectsLeft(s.objects, s.db.blobs, s.db.doomed, kept, j);
    }
  }

  // Once the collection is gone and its job has no rows, the state is its own outlook.
  ghost predicate Settled(s: State, o: Outlook) {
    && s.db.collections == o.collections && s.db.items == o.items && s.db.artifacts == o.artifacts
    && s.db.itemLinks == o.itemLinks && s.db.collectionLinks == o.collectionLinks && s.db.lineage == o.lineage
    && s.db.selections == o.selections && s.db.selected == o.selected && s.db.runs == o.runs
    && s.db.blobs == o.blobs && s.db.doomed == o.doomed && s.objects == o.objects
  }

  lemma NothingLeft(s: State, c: Id)
    requires Consistent(s) && c !in s.db.collections
    ensures ItemsOf(s.db.items, c) == {} && ArtifactsOf(s.db, c) == {}
    ensures SelectionsLeft(s.db.selections, c) == s.db.selections && RunsLeft(s.db.runs, c) == s.db.runs
    ensures SelectedLeft(s.db.selected, s.db.selections, s.db.items, c) == s.db.selected
  {
    assert Holds(ItemRows, s) && Holds(SelectionRows, s) && Holds(Links, s);
  }

  lemma NothingLost(s: State, j: Id)
    requires Consistent(s) && RowsOf(s.db.doomed, j) == {}
    ensures BlobsFor(s.db.blobs, s.db.artifacts) == s.db.blobs
    ensures ObjectsLeft(s.objects, s.db.blobs, s.db.doomed, s.db.artifacts, j) == s.objects
  {
    assert Holds(Blobs, s) && Holds(Objects, s);
    forall p ensures !Lost(s.db.blobs, s.db.doomed, s.db.artifacts, j, p) {
      assert p.key !in RowsOf(s.db.doomed, j);
    }
  }

  lemma KeepNone<V>(m: map<Id, V>)
    ensures Keep(m, {}) == m
  {
  }

  lemma OutlookReached(s: State, j: Id)
    requires Consistent(s) && j in s.db.jobs && s.db.jobs[j].collection !in s.db.collections && RowsOf(s.db.doomed, j) == {}
    ensures Settled(s, OutlookOf(s, j))
  {
    var c := s.db.jobs[j].collection;
    NothingLeft(s, c);
    assert Keep(s.db.collections, {c}) == s.db.collections;
    KeepNone(s.db.items);
    KeepNone(s.db.artifacts);
    KeepNone(s.db.itemLinks);
    KeepNone(s.db.collectionLinks);
    KeepNone(s.db.doomed);
    assert KeepPairs(s.db.lineage, {}) == s.db.lineage;
    NothingLost(s, j);
  }
}
