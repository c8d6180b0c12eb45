/** The counters that a deletion job keeps of its own progress. */
module DeletionCounts {
  import opened Common
  import opened ArtifactState
  import opened DeletionSpec
  import opened DeletionSafety
  import opened DeletionOutcome

  lemma ShrinkBy(a: set<Id>, b: set<Id>)
    requires b <= a
    ensures |a - b| == |a| - |b|
  {
    assert a == (a - b) + b;
  }

  // deleted_item_count plus the collection's items, and deleted_artifact_count plus its artifacts.
  function ItemTotal(s: State, j: Id): int
    requires j in s.db.jobs
  {
    s.db.jobs[j].deletedItems + |ItemsOf(s.db.items, s.db.jobs[j].collection)|
  }

  function ArtifactTotal(s: State, j: Id): int
    requires j in s.db.jobs
  {
    s.db.jobs[j].deletedArtifacts + |ArtifactsOf(s.db, s.db.jobs[j].collection)|
  }

  lemma RemovedTotals(s: State, j: Id, dead: set<Id>)
    requires j in s.db.jobs && dead <= ArtifactsOf(s.db, s.db.jobs[j].collection)
    ensures ItemTotal(Removed(s, j, dead), j) == ItemTotal(s, j)
    ensures ArtifactTotal(Removed(s, j, dead), j) == ArtifactTotal(s, j) - |dead|
  {
    RemovedArtifactsOf(s.db, j, dead, s.db.jobs[j].collection);
    ShrinkBy(ArtifactsOf(s.db, s.db.jobs[j].collection), dead);
  }

  lemma ItemsGoneTotals(s: State, j: Id, batch: set<Id>)
    requires j in s.db.jobs && batch <= ItemsOf(s.db.items, s.db.jobs[j].collection) && ArtifactsOfItems(s.db.itemLinks, batch) == {}
    ensures ItemTotal(WithoutItems(s, batch), j) == ItemTotal(s, j) - |batch|
    ensures ArtifactTotal(WithoutItems(s, batch), j) == ArtifactTotal(s, j)
  {
    var c := s.db.jobs[j].collection;
    assert ItemsOf(Keep(s.db.items, batch), c) == ItemsOf(s.db.items, c) - batch;
    ShrinkBy(ItemsOf(s.db.items, c), batch);
    ArtifactsOfFewerItems(s.db, c, batch);
  }

  lemma ArtifactsOfFewerItems(db: Database, c: Id, batch: set<Id>)
    requires ArtifactsOfItems(db.itemLinks, batch) == {}
    ensures ArtifactsOfItems(db.itemLinks, ItemsOf(db.items, c) - batch) == ArtifactsOfItems(db.itemLinks, ItemsOf(db.items, c))
  {
    forall a | a in db.itemLinks ensures db.itemLinks[a].item !in batch {
      assert a !in ArtifactsOfItems(db.itemLinks, batch);
    }
  }

  lemma CountedTotals(s: State, j: Id, items: nat, artifacts: nat)
    requires j in s.db.jobs
    ensures ItemTotal(Counted(s, j, items, artifacts), j) == ItemTotal(s, j) + items
    ensures ArtifactTotal(Counted(s, j, items, artifacts), j) == ArtifactTotal(s, j) + artifacts
  {
  }

  // An item batch moves items and artifacts from the remaining ones to the counted ones.
  lemma ItemBatchConserves(s: State, j: Id, batch: set<Id>)
    requires j in s.db.jobs
    ensures var s' := ItemBatch(s, j, batch);
      j in s'.db.jobs && ItemTotal(s', j) == ItemTotal(s, j) && ArtifactTotal(s', j) == ArtifactTotal(s, j)
  {
    if CanDeleteItems(s.db, j, batch) {
      var dead := ArtifactsOfItems(s.db.itemLinks, batch);
      RemovedTotals(s, j, dead);
      var s1 := Removed(s, j, dead);
      assert ArtifactsOfItems(s1.db.itemLinks, batch) == {};
      ItemsGoneTotals(s1, j, batch);
      CountedTotals(WithoutItems(s1, batch), j, |batch|, |dead|);
    }
  }

  lemma CollectionGoneTotals(s: State, j: Id, c: Id)
    requires j in s.db.jobs
    ensures ItemTotal(WithoutCollection(s, c), j) == ItemTotal(s, j) && ArtifactTotal(WithoutCollection(s, c), j) == ArtifactTotal(s, j)
  {
  }

  // So does the deletion of the collection record with its source containers.
  lemma RecordConserves(s: State, j: Id)
    requires j in s.db.jobs && RecordError(s.db, j) == None && s.db.jobs[j].collection in s.db.collections
    ensures var s' := WithoutRecord(s, j, s.db.jobs[j].collection);
      ItemTotal(s', j) == ItemTotal(s, j) && ArtifactTotal(s', j) == ArtifactTotal(s, j)
  {
    WithoutRecordTotals(s, j, s.db.jobs[j].collection);
  }

  lemma WithoutRecordTotals(s: State, j: Id, c: Id)
    requires j in s.db.jobs && s.db.jobs[j].collection == c
    ensures ItemTotal(WithoutRecord(s, j, c), j) == ItemTotal(s, j) && ArtifactTotal(WithoutRecord(s, j, c), j) == ArtifactTotal(s, j)
  {
    var dead := ContainersOf(s.db.collectionLinks, c);
    RemovedTotals(s, j, dead);
    CollectionGoneTotals(Removed(s, j, dead), j, c);
    CountedTotals(WithoutCollection(Removed(s, j, dead), c), j, 0, |dead|);
  }

  // ---------------------------------------------------------------- blob rows

  // The blob_count of a job less its rows.
  function SurplusOf(jobs: map<Id, Job>, doomed: map<Id, Doomed>, j: Id): int
    requires j in jobs
  {
    jobs[j].blobCount - |RowsOf(doomed, j)|
  }

  function Surplus(s: State, j: Id): int
    requires j in s.db.jobs
  {
    SurplusOf(s.db.jobs, s.db.doomed, j)
  }

  lemma SchedulingKeepsSurplus(jobs: map<Id, Job>, blobs: map<Id, Blob>, doomed: map<Id, Doomed>, k: Id, orphans: set<Id>, j: Id)
    requires k in jobs && j in jobs && orphans <= blobs.Keys && doomed.Keys !! blobs.Keys
    ensures SurplusOf(WithBlobCount(jobs, k, |orphans|), doomed + Scheduled(blobs, k, orphans), j) == SurplusOf(jobs, doomed, j)
  {
    SchedulingCounts(blobs, doomed, k, orphans, j);
  }

  lemma RemovalKeepsSurplus(s: State, k: Id, dead: set<Id>, j: Id)
    requires Consistent(s) && j in s.db.jobs && k in s.db.jobs
    ensures Surplus(Removed(s, k, dead), j) == Surplus(s, j)
  {
    DoomedApart(s);
    SchedulingKeepsSurplus(s.db.jobs, s.db.blobs, s.db.doomed, k, Orphans(s.db.artifacts, s.db.blobs, dead), j);
  }

  lemma QuietKeepsSurplus(s: State, s': State, j: Id)
    requires j in s.db.jobs && SameStorage(s, s') && SameBlobCounts(s.db.jobs, s'.db.jobs)
    ensures j in s'.db.jobs && Surplus(s', j) == Surplus(s, j)
  {
  }

  lemma ItemBatchKeepsSurplus(s: State, k: Id, batch: set<Id>, j: Id)
    requires Consistent(s) && j in s.db.jobs
    ensures j in ItemBatch(s, k, batch).db.jobs && Surplus(ItemBatch(s, k, batch), j) == Surplus(s, j)
  {
    if CanDeleteItems(s.db, k, batch) {
      var dead := ArtifactsOfItems(s.db.itemLinks, batch);
      RemovalKeepsSurplus(s, k, dead, j);
      QuietKeepsSurplus(Removed(s, k, dead), ItemBatch(s, k, batch), j);
    }
  }

  lemma RecordKeepsSurplus(s: State, k: Id, j: Id)
    requires Consistent(s) && j in s.db.jobs
    ensures j in Record(s, k).db.jobs && Surplus(Record(s, k), j) == Surplus(s, j)
  {
    if RecordError(s.db, k) == None {
      var c := s.db.jobs[k].collection;
      if c in s.db.collections {
        RemovalKeepsSurplus(s, k, ContainersOf(s.db.collectionLinks, c), j);
        QuietKeepsSurplus(Removed(s, k, ContainersOf(s.db.collectionLinks, c)), WithoutRecord(s, k, c), j);
        QuietKeepsSurplus(WithoutRecord(s, k, c), Record(s, k), j);
      } else {
        QuietKeepsSurplus(s, Record(s, k), j);
      }
    }
  }

  lemma BlobBatchKeepsSurplus(s: State, k: Id, batch: set<Id>, j: Id)
    requires j in s.db.jobs
    ensures j in BlobBatch(s, k, batch).db.jobs && Surplus(BlobBatch(s, k, batch), j) == Surplus(s, j)
  {
    if k in s.db.jobs && batch <= PendingOf(s.db.doomed, k) {
      MarkedCounts(s.db.doomed, batch, k, j);
    }
  }

  lemma OtherRows(rows: map<Id, Doomed>, k: Id, j: Id)
    ensures RowsOf(Keep(rows, RowsOf(rows, k)), j) == if j == k then {} else RowsOf(rows, j)
  {
  }

  lemma CompleteKeepsSurplus(s: State, k: Id, j: Id)
    requires j in s.db.jobs && j != k
    ensures j in Complete(s, k).db.jobs && Surplus(Complete(s, k), j) == Surplus(s, j)
  {
    OtherRows(s.db.doomed, k, j);
  }

  // Completing drops the rows and keeps the count: the two agree afterwards only if no blob was scheduled.
  lemma CompleteDropsRows(s: State, j: Id)
    requires j in s.db.jobs && PendingOf(s.db.doomed, j) == {}
    ensures Surplus(Complete(s, j), j) == s.db.jobs[j].blobCount
    ensures Surplus(Complete(s, j), j) == 0 <==> s.db.jobs[j].blobCount == 0
  {
    OtherRows(s.db.doomed, j, j);
  }

  lemma SameRowsKeepSurplus(s: State, s': State, j: Id)
    requires j in s.db.jobs && s'.db.jobs == s.db.jobs && s'.db.doomed == s.db.doomed
    ensures j in s'.db.jobs && Surplus(s', j) == Surplus(s, j)
  {
  }

  lemma SameRowsSteps(s: State, step: Step)
    requires step.SAddItem? || step.SAddContainer? || step.SAddDerived? || step.SPutObject? || step.SInterrupted?
    ensures Apply(s, step).db.jobs == s.db.jobs && Apply(s, step).db.doomed == s.db.doomed
  {
  }

  lemma QuietSteps(s: State, step: Step)
    requires !step.SItemBatch? && !step.SRecord? && !step.SBlobBatch? && !step.SComplete? && !step.SInterrupted?
    requires !step.SAddItem? && !step.SAddContainer? && !step.SAddDerived? && !step.SPutObject?
    ensures SameStorage(s, Apply(s, step)) && SameBlobCounts(s.db.jobs, Apply(s, step).db.jobs)
  {
  }

  // Every step but the job's own completion keeps blob_count in line with the rows.
  lemma StepKeepsSurplus(s: State, step: Step, j: Id)
    requires Consistent(s) && j in s.db.jobs && step != SComplete(j)
    ensures j in Apply(s, step).db.jobs && Surplus(Apply(s, step), j) == Surplus(s, j)
  {
    if step.SItemBatch? {
      ItemBatchKeepsSurplus(s, step.j, step.batch, j);
    } else if step.SRecord? {
      RecordKeepsSurplus(s, step.j, j);
    } else if step.SBlobBatch? {
      BlobBatchKeepsSurplus(s, step.j, step.batch, j);
    } else if step.SComplete? {
      CompleteKeepsSurplus(s, step.j, j);
    } else if step.SAddItem? || step.SAddContainer? || step.SAddDerived? || step.SPutObject? || step.SInterrupted? {
      SameRowsSteps(s, step);
      SameRowsKeepSurplus(s, Apply(s, step), j);
    } else {
      QuietSteps(s, step);
      QuietKeepsSurplus(s, Apply(s, step), j);
    }
  }

  lemma OnlyCreateAddsJobs(s: State, step: Step, j: Id)
    requires j !in s.db.jobs && j in Apply(s, step).db.jobs
    ensures step.SCreateJob? && step.j == j
  {
  }

  lemma CreatedCount(s: State, c: Id, j: Id, createdAt: int)
    requires j !in s.db.jobs && j in CreateJob(s, c, j, createdAt).db.jobs
    ensures CreateJob(s, c, j, createdAt).db.jobs[j].blobCount == 0
  {
  }

  lemma NewJobHasNoRows(s: State, step: Step, j: Id)
    requires Consistent(s) && j !in s.db.jobs && j in Apply(s, step).db.jobs
    ensures Surplus(Apply(s, step), j) == 0
  {
    OnlyCreateAddsJobs(s, step, j);
    CreatedCount(s, step.c, j, step.createdAt);
    NoRowsBefore(s, j);
    QuietSteps(s, step);
  }

  lemma NoRowsBefore(s: State, j: Id)
    requires Consistent(s) && j !in s.db.jobs
    ensures RowsOf(s.db.doomed, j) == {}
  {
    assert Holds(Counts, s);
  }

  // In every run, until a job completes, its blob_count is its PENDING and DELETED rows and its
  // deleted_blob_count its DELETED rows.
  lemma {:induction false} CountsMatchRows(steps: seq<Step>, j: Id)
    requires SComplete(j) !in steps && j in After(EMPTY, steps).db.jobs
    ensures var s := After(EMPTY, steps);
      && s.db.jobs[j].blobCount == |RowsOf(s.db.doomed, j)|
      && s.db.jobs[j].deletedBlobs == |RowsOf(s.db.doomed, j)| - |PendingOf(s.db.doomed, j)|
  {
    assert steps != [];
    var front, last := steps[..|steps| - 1], steps[|steps| - 1];
    var s := After(EMPTY, front);
    EmptyIsConsistent();
    RunKeeps(EMPTY, front);
    RunKeeps(EMPTY, steps);
    CountOf(After(EMPTY, steps), j);
    if j in s.db.jobs {
      CountsMatchRows(front, j);
      StepKeepsSurplus(s, last, j);
    } else {
      NewJobHasNoRows(s, last, j);
    }
  }
}
