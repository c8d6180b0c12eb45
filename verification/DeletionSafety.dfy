/**
  What every run of the artifact service keeps, whatever the interleaving of uploads, derived stores,
  deletion steps, crashes and retries.
 */
module DeletionSafety {
  import opened Common
  import opened ArtifactState
  import opened DeletionSpec

  // ---------------------------------------------------------------- removing artifacts

  // Under the blob invariant the orphans are the blobs that no kept artifact refers to.
  lemma OrphansAreUnreferenced(artifacts: map<Id, Id>, blobs: map<Id, Blob>, dead: set<Id>)
    requires BlobsOk(artifacts, blobs)
    ensures Orphans(artifacts, blobs, dead) == blobs.Keys - Keep(artifacts, dead).Values
    ensures Keep(artifacts, dead).Values <= blobs.Keys
  {
    var kept := Keep(artifacts, dead);
    forall b | b in kept.Values ensures b in blobs {
      var a :| a in kept && kept[a] == b;
      assert artifacts[a] == b;
    }
    assert forall a :: a in kept ==> kept[a] in kept.Values;
    forall b | b in blobs && b !in kept.Values ensures b in Orphans(artifacts, blobs, dead) {
      assert b in artifacts.Values;
      var a :| a in artifacts && artifacts[a] == b;
      assert a !in dead ==> a in kept;
    }
  }

  lemma RemovalKeepsBlobs(artifacts: map<Id, Id>, blobs: map<Id, Blob>, dead: set<Id>)
    requires BlobsOk(artifacts, blobs)
    ensures BlobsOk(Keep(artifacts, dead), Keep(blobs, Orphans(artifacts, blobs, dead)))
  {
    OrphansAreUnreferenced(artifacts, blobs, dead);
  }

  lemma RemovalKeepsObjects(blobs: map<Id, Blob>, doomed: map<Id, Doomed>, objects: map<Location, string>, spent: set<Id>, j: Id, orphans: set<Id>)
    requires ObjectsOk(blobs, doomed, objects) && KeysOk(objects, spent)
    ensures ObjectsOk(Keep(blobs, orphans), doomed + Scheduled(blobs, j, orphans), objects)
  {
  }

  lemma PendingOfUnion(rows: map<Id, Doomed>, added: map<Id, Doomed>, j: Id, k: Id)
    requires rows.Keys !! added.Keys && forall b :: b in added ==> added[b].job == j && !added[b].deleted
    ensures PendingOf(rows + added, k) == PendingOf(rows, k) + if k == j then added.Keys else {}
  {
  }

  lemma RowsOfUnion(rows: map<Id, Doomed>, added: map<Id, Doomed>, j: Id, k: Id)
    requires rows.Keys !! added.Keys && forall b :: b in added ==> added[b].job == j
    ensures RowsOf(rows + added, k) == RowsOf(rows, k) + if k == j then added.Keys else {}
  {
  }

  lemma DisjointUnionSize(a: set<Id>, b: set<Id>)
    requires a !! b
    ensures |a + b| == |a| + |b|
  {
  }

  // Scheduling adds one PENDING row for each orphan.
  lemma SchedulingCounts(blobs: map<Id, Blob>, doomed: map<Id, Doomed>, j: Id, orphans: set<Id>, k: Id)
    requires orphans <= blobs.Keys && doomed.Keys !! blobs.Keys
    ensures var doomed' := doomed + Scheduled(blobs, j, orphans);
      var n := if k == j then |orphans| else 0;
      |PendingOf(doomed', k)| == |PendingOf(doomed, k)| + n && |RowsOf(doomed', k)| == |RowsOf(doomed, k)| + n
  {
    var added := Scheduled(blobs, j, orphans);
    assert added.Keys == orphans;
    PendingOfUnion(doomed, added, j, k);
    RowsOfUnion(doomed, added, j, k);
    DisjointUnionSize(PendingOf(doomed, k), orphans);
    DisjointUnionSize(RowsOf(doomed, k), orphans);
  }

  lemma RemovalKeepsCounts(jobs: map<Id, Job>, blobs: map<Id, Blob>, doomed: map<Id, Doomed>, j: Id, orphans: set<Id>)
    requires j in jobs && CountsOk(jobs, doomed) && orphans <= blobs.Keys && doomed.Keys !! blobs.Keys
    ensures CountsOk(WithBlobCount(jobs, j, |orphans|), doomed + Scheduled(blobs, j, orphans))
  {
    var jobs', doomed' := WithBlobCount(jobs, j, |orphans|), doomed + Scheduled(blobs, j, orphans);
    forall k | k in jobs' ensures jobs'[k].blobCount == jobs'[k].deletedBlobs + |PendingOf(doomed', k)| {
      SchedulingCounts(blobs, doomed, j, orphans, k);
    }
  }

  lemma RemovalKeepsLinks(collections: set<Id>, items: set<Id>, artifacts: map<Id, Id>, itemLinks: map<Id, ItemLink>,
                          collectionLinks: map<Id, Id>, lineage: set<(Id, Id)>, dead: set<Id>)
    requires LinksOk(collections, items, artifacts.Keys, itemLinks, collectionLinks, lineage)
    ensures LinksOk(collections, items, Keep(artifacts, dead).Keys, Keep(itemLinks, dead), Keep(collectionLinks, dead), KeepPairs(lineage, dead))
  {
  }

  // The count of pending rows of one job.
  lemma CountOf(s: State, j: Id)
    requires Consistent(s) && j in s.db.jobs
    ensures s.db.jobs[j].blobCount == s.db.jobs[j].deletedBlobs + |PendingOf(s.db.doomed, j)|
  {
    assert Holds(Counts, s);
  }

  lemma JobOf(s: State, j: Id)
    requires Consistent(s) && j in s.db.jobs
    ensures Active(s.db.jobs[j].status) ==> !ActiveElsewhere(s.db.jobs, j, s.db.jobs[j].collection)
  {
    assert Holds(ActiveJobs, s);
  }

  lemma DoomedApart(s: State)
    requires Consistent(s)
    ensures s.db.doomed.Keys !! s.db.blobs.Keys
  {
    assert Holds(Objects, s);
  }

  lemma BlobCountKeepsJobs(jobs: map<Id, Job>, j: Id, scheduled: nat, spent: set<Id>)
    requires j in jobs
    ensures JobsOk(jobs) ==> JobsOk(WithBlobCount(jobs, j, scheduled))
    ensures JobIdsOk(jobs, spent) ==> JobIdsOk(WithBlobCount(jobs, j, scheduled), spent)
  {
    SameJobsActive(jobs, WithBlobCount(jobs, j, scheduled));
  }

  lemma RemovalKeeps(s: State, j: Id, dead: set<Id>)
    requires j in s.db.jobs && Consistent(s)
    ensures Consistent(Removed(s, j, dead))
  {
    var s' := Removed(s, j, dead);
    var orphans := Orphans(s.db.artifacts, s.db.blobs, dead);
    forall rule ensures Holds(rule, s') {
      assert Holds(rule, s);
      match rule
      case Links =>
        RemovalKeepsLinks(s.db.collections.Keys, s.db.items.Keys, s.db.artifacts, s.db.itemLinks, s.db.collectionLinks, s.db.lineage, dead);
      case Blobs => RemovalKeepsBlobs(s.db.artifacts, s.db.blobs, dead);
      case Objects =>
        assert Holds(StorageKeys, s);
        RemovalKeepsObjects(s.db.blobs, s.db.doomed, s.objects, s.spent, j, orphans);
      case Counts =>
        DoomedApart(s);
        RemovalKeepsCounts(s.db.jobs, s.db.blobs, s.db.doomed, j, orphans);
      case ActiveJobs => BlobCountKeepsJobs(s.db.jobs, j, |orphans|, s.spent);
      case JobIds => BlobCountKeepsJobs(s.db.jobs, j, |orphans|, s.spent);
      case _ =>
    }
  }

  // ---------------------------------------------------------------- job rows

  lemma SameJobsActive(jobs: map<Id, Job>, jobs': map<Id, Job>)
    requires SameJobs(jobs, jobs')
    ensures JobsOk(jobs) ==> JobsOk(jobs')
    ensures forall k, c :: ActiveElsewhere(jobs', k, c) == ActiveElsewhere(jobs, k, c)
  {
  }

  lemma SetJobKeepsJobs(jobs: map<Id, Job>, j: Id, job: Job)
    requires j in jobs && JobsOk(jobs) && job.collection == jobs[j].collection
    requires Active(job.status) ==> !ActiveElsewhere(jobs, j, job.collection)
    ensures JobsOk(jobs[j := job])
  {
  }

  lemma SetJobKeeps(s: State, j: Id, job: Job)
    requires Consistent(s) && j in s.db.jobs && job.collection == s.db.jobs[j].collection
    requires job.blobCount == job.deletedBlobs + |PendingOf(s.db.doomed, j)|
    requires Active(job.status) ==> !ActiveElsewhere(s.db.jobs, j, job.collection)
    ensures Consistent(SetJob(s, j, job))
  {
    forall rule ensures Holds(rule, SetJob(s, j, job)) {
      assert Holds(rule, s);
      match rule
      case ActiveJobs => SetJobKeepsJobs(s.db.jobs, j, job);
      case _ =>
    }
  }

  lemma WithStatusKeeps(s: State, c: Id, status: CollectionStatus)
    requires Consistent(s)
    ensures Consistent(WithStatus(s, c, status))
  {
    assert SetStatus(s.db.collections, c, status).Keys == s.db.collections.Keys;
    forall rule ensures Holds(rule, WithStatus(s, c, status)) {
      assert Holds(rule, s);
    }
  }

  // ---------------------------------------------------------------- deletion steps

  lemma NewJobKeepsRule(s: State, j: Id, job: Job, rule: Rule)
    requires Consistent(s) && j !in s.spent && job.collection in s.db.collections
    requires job.blobCount == job.deletedBlobs == 0 && !HasActiveJob(s.db.jobs, job.collection)
    ensures Holds(rule, SetJob(s, j, job).(spent := s.spent + {j}))
  {
    assert Holds(rule, s);
    match rule
    case Counts =>
      assert Holds(JobIds, s);
      assert PendingOf(s.db.doomed, j) == {};
    case JobIds => assert Holds(Ids, s);
    case _ =>
  }

  lemma CreateJobKeeps(s: State, c: Id, j: Id, createdAt: int)
    requires Consistent(s)
    ensures Consistent(CreateJob(s, c, j, createdAt))
  {
    var s' := CreateJob(s, c, j, createdAt);
    if CanCreateJob(s.db, c) && j !in s.spent && j !in s.db.jobs {
      WithStatusKeeps(s, c, Deleting);
      forall rule ensures Holds(rule, s') {
        NewJobKeepsRule(WithStatus(s, c, Deleting), j, NewJob(s.db, c, createdAt), rule);
      }
    }
  }

  lemma RetryKeeps(s: State, j: Id)
    requires Consistent(s)
    ensures Consistent(Retry(s, j))
  {
    if j in s.db.jobs && s.db.jobs[j].status == Failed && !ActiveElsewhere(s.db.jobs, j, s.db.jobs[j].collection) {
      var job := s.db.jobs[j];
      WithStatusKeeps(s, job.collection, Deleting);
      CountOf(s, j);
      SetJobKeeps(WithStatus(s, job.collection, Deleting), j, job.(status := Queued, attempts := job.attempts + 1));
    }
  }

  lemma AdvanceKeeps(s: State, j: Id, status: JobStatus)
    requires Consistent(s)
    ensures Consistent(Advance(s, j, status))
  {
    if j in s.db.jobs && !ActiveElsewhere(s.db.jobs, j, s.db.jobs[j].collection) {
      WithJobStatusKeeps(s, j, status);
    }
  }

  lemma PrepareKeeps(s: State, j: Id)
    requires Consistent(s)
    ensures Consistent(Prepare(s, j))
  {
    if j in s.db.jobs {
      var items' := Unparented(s.db.items, s.db.jobs[j].collection);
      var s1 := s.(db := s.db.(items := items'));
      assert items'.Keys == s.db.items.Keys;
      forall rule ensures Holds(rule, s1) {
        assert Holds(rule, s);
        match rule
        case ItemRows =>
          forall i ensures ParentInside(items', i) {
            assert ParentInside(s.db.items, i);
          }
        case _ =>
      }
      AdvanceKeeps(s1, j, DeletingRows);
    }
  }

  lemma ItemsGoneKeeps(s: State, batch: set<Id>)
    requires Consistent(s) && ArtifactsOfItems(s.db.itemLinks, batch) == {} && !ParentHeld(s.db.items, batch)
    ensures Consistent(WithoutItems(s, batch))
  {
    var s' := WithoutItems(s, batch);
    forall rule ensures Holds(rule, s') {
      assert Holds(rule, s);
      match rule
      case ItemRows =>
        forall i ensures ParentInside(s'.db.items, i) {
          assert ParentInside(s.db.items, i);
        }
      case Links =>
        forall a | a in s.db.itemLinks ensures s.db.itemLinks[a].item in s'.db.items {
          assert a !in ArtifactsOfItems(s.db.itemLinks, batch);
        }
      case _ =>
    }
  }

  lemma CountedKeeps(s: State, j: Id, items: nat, artifacts: nat)
    requires Consistent(s) && j in s.db.jobs
    ensures Consistent(Counted(s, j, items, artifacts))
  {
    CountOf(s, j);
    JobOf(s, j);
    var job := s.db.jobs[j];
    SetJobKeeps(s, j, job.(deletedItems := job.deletedItems + items, deletedArtifacts := job.deletedArtifacts + artifacts));
  }

  lemma ItemBatchKeeps(s: State, j: Id, batch: set<Id>)
    requires Consistent(s)
    ensures Consistent(ItemBatch(s, j, batch))
  {
    if CanDeleteItems(s.db, j, batch) {
      var dead := ArtifactsOfItems(s.db.itemLinks, batch);
      RemovalKeeps(s, j, dead);
      var s1 := Removed(s, j, dead);
      assert ArtifactsOfItems(s1.db.itemLinks, batch) == {};
      ItemsGoneKeeps(s1, batch);
      CountedKeeps(WithoutItems(s1, batch), j, |batch|, |dead|);
    }
  }

  lemma CollectionGoneKeeps(s: State, c: Id)
    requires Consistent(s) && ItemsOf(s.db.items, c) == {} && ContainersOf(s.db.collectionLinks, c) == {}
    ensures Consistent(WithoutCollection(s, c))
  {
    var s' := WithoutCollection(s, c);
    forall rule ensures Holds(rule, s') {
      assert Holds(rule, s);
      match rule
      case ItemRows =>
        forall i | i in s.db.items ensures s.db.items[i].collection in s'.db.collections {
          assert i !in ItemsOf(s.db.items, c);
        }
      case Links =>
        forall a | a in s.db.collectionLinks ensures s.db.collectionLinks[a] in s'.db.collections {
          assert a !in ContainersOf(s.db.collectionLinks, c);
        }
      case _ =>
    }
  }

  lemma WithJobStatusKeeps(s: State, j: Id, status: JobStatus)
    requires Consistent(s) && j in s.db.jobs && !ActiveElsewhere(s.db.jobs, j, s.db.jobs[j].collection)
    ensures Consistent(WithJobStatus(s, j, status))
  {
    CountOf(s, j);
    SetJobKeeps(s, j, s.db.jobs[j].(status := status));
  }

  lemma WithoutRecordKeeps(s: State, j: Id, c: Id)
    requires Consistent(s) && j in s.db.jobs && ItemsOf(s.db.items, c) == {}
    ensures Consistent(WithoutRecord(s, j, c))
  {
    var dead := ContainersOf(s.db.collectionLinks, c);
    var s1 := Removed(s, j, dead);
    RemovalKeeps(s, j, dead);
    CollectionGoneKeeps(s1, c);
    CountedKeeps(WithoutCollection(s1, c), j, 0, |dead|);
  }

  lemma WithoutRecordJobs(s: State, j: Id, c: Id)
    requires j in s.db.jobs
    ensures var jobs' := WithoutRecord(s, j, c).db.jobs;
      jobs'[j].collection == s.db.jobs[j].collection && forall d :: ActiveElsewhere(jobs', j, d) == ActiveElsewhere(s.db.jobs, j, d)
  {
    SameJobsActive(s.db.jobs, WithoutRecord(s, j, c).db.jobs);
  }

  lemma RecordKeeps(s: State, j: Id)
    requires Consistent(s)
    ensures Consistent(Record(s, j))
  {
    if RecordError(s.db, j) == None {
      var c := s.db.jobs[j].collection;
      if c !in s.db.collections {
        WithJobStatusKeeps(s, j, DeletingBlobs);
      } else {
        WithoutRecordKeeps(s, j, c);
        WithoutRecordJobs(s, j, c);
        WithJobStatusKeeps(WithoutRecord(s, j, c), j, DeletingBlobs);
      }
    }
  }

  // A scheduled object is not the object of a live blob.
  lemma ObjectsGoneKeeps(s: State, batch: set<Id>)
    requires Consistent(s)
    ensures Consistent(s.(objects := ObjectsWithout(s.objects, s.db.doomed, batch)))
  {
    var s' := s.(objects := ObjectsWithout(s.objects, s.db.doomed, batch));
    forall rule ensures Holds(rule, s') {
      assert Holds(rule, s);
      match rule
      case Objects =>
        forall b | b in s.db.blobs ensures s.db.blobs[b].place in s'.objects {
          assert s.db.blobs[b].place.key == b;
        }
      case _ =>
    }
  }

  lemma MarkedCounts(rows: map<Id, Doomed>, batch: set<Id>, j: Id, k: Id)
    requires batch <= PendingOf(rows, j)
    ensures |PendingOf(Marked(rows, batch), k)| == |PendingOf(rows, k)| - if k == j then |batch| else 0
    ensures RowsOf(Marked(rows, batch), k) == RowsOf(rows, k)
  {
    assert PendingOf(Marked(rows, batch), k) == if k == j then PendingOf(rows, j) - batch else PendingOf(rows, k);
  }

  lemma MarkingKeepsCounts(jobs: map<Id, Job>, rows: map<Id, Doomed>, j: Id, batch: set<Id>)
    requires j in jobs && CountsOk(jobs, rows) && batch <= PendingOf(rows, j)
    ensures CountsOk(jobs[j := jobs[j].(deletedBlobs := jobs[j].deletedBlobs + |batch|)], Marked(rows, batch))
  {
    var jobs', rows' := jobs[j := jobs[j].(deletedBlobs := jobs[j].deletedBlobs + |batch|)], Marked(rows, batch);
    forall k | k in jobs' ensures jobs'[k].blobCount == jobs'[k].deletedBlobs + |PendingOf(rows', k)| {
      MarkedCounts(rows, batch, j, k);
    }
  }

  lemma BlobBatchKeepsJobs(s: State, j: Id, batch: set<Id>, rule: Rule)
    requires Consistent(s) && j in s.db.jobs && batch <= PendingOf(s.db.doomed, j) && (rule == Counts || rule == ActiveJobs || rule == JobIds)
    ensures Holds(rule, BlobBatch(s, j, batch))
  {
    assert Holds(rule, s);
    if rule == Counts {
      MarkingKeepsCounts(s.db.jobs, s.db.doomed, j, batch);
    } else if rule == ActiveJobs {
      SameJobsActive(s.db.jobs, BlobBatch(s, j, batch).db.jobs);
    }
  }

  lemma BlobBatchKeepsRest(s: State, j: Id, batch: set<Id>, rule: Rule)
    requires Consistent(s) && j in s.db.jobs && batch <= PendingOf(s.db.doomed, j) && rule != Counts && rule != ActiveJobs && rule != JobIds
    ensures Holds(rule, BlobBatch(s, j, batch))
  {
    ObjectsGoneKeeps(s, batch);
    assert Holds(rule, s.(objects := ObjectsWithout(s.objects, s.db.doomed, batch)));
  }

  lemma BlobBatchKeeps(s: State, j: Id, batch: set<Id>)
    requires Consistent(s)
    ensures Consistent(BlobBatch(s, j, batch))
  {
    if j in s.db.jobs && batch <= PendingOf(s.db.doomed, j) {
      forall rule ensures Holds(rule, BlobBatch(s, j, batch)) {
        if rule == Counts || rule == ActiveJobs || rule == JobIds {
          BlobBatchKeepsJobs(s, j, batch, rule);
        } else {
          BlobBatchKeepsRest(s, j, batch, rule);
        }
      }
    }
  }

  lemma DroppingKeepsCounts(jobs: map<Id, Job>, rows: map<Id, Doomed>, j: Id)
    requires CountsOk(jobs, rows) && PendingOf(rows, j) == {}
    ensures CountsOk(jobs, Keep(rows, RowsOf(rows, j)))
  {
    forall k | k in jobs ensures PendingOf(Keep(rows, RowsOf(rows, j)), k) == PendingOf(rows, k) {
    }
  }

  lemma CompleteKeeps(s: State, j: Id)
    requires Consistent(s)
    ensures Consistent(Complete(s, j))
  {
    if j in s.db.jobs && PendingOf(s.db.doomed, j) == {} {
      var s1 := s.(db := s.db.(doomed := Keep(s.db.doomed, RowsOf(s.db.doomed, j))));
      forall rule ensures Holds(rule, s1) {
        assert Holds(rule, s);
        match rule
        case Counts => DroppingKeepsCounts(s.db.jobs, s.db.doomed, j);
        case _ =>
      }
      assert PendingOf(s1.db.doomed, j) == {};
      CountOf(s1, j);
      SetJobKeeps(s1, j, s.db.jobs[j].(status := Completed));
    }
  }

  lemma FailKeeps(s: State, j: Id)
    requires Consistent(s)
    ensures Consistent(Fail(s, j))
  {
    if j in s.db.jobs {
      var job := s.db.jobs[j];
      CountOf(s, j);
      WithStatusKeeps(s, job.collection, job.previousStatus);
      SetJobKeeps(Reopened(s, job), j, job.(status := Failed));
    }
  }

  // ---------------------------------------------------------------- uploads

  lemma PutObjectKeepsObjects(s: State, tenant: Id, key: Id, content: string, rule: Rule)
    requires Consistent(s) && key !in s.spent && (rule == Objects || rule == StorageKeys)
    ensures Holds(rule, PutObject(s, tenant, key, content))
  {
    assert Holds(rule, s) && Holds(Ids, s) && Holds(StorageKeys, s);
  }

  lemma PutObjectKeeps(s: State, tenant: Id, key: Id, content: string)
    requires Consistent(s)
    ensures Consistent(PutObject(s, tenant, key, content))
  {
    if key !in s.spent {
      forall rule ensures Holds(rule, PutObject(s, tenant, key, content)) {
        if rule == Objects || rule == StorageKeys {
          PutObjectKeepsObjects(s, tenant, key, content, rule);
        } else {
          assert Holds(rule, s);
        }
      }
    }
  }

  // The blob and artifact rows of an upload.
  lemma ArtifactKeepsBlobs(s: State, tenant: Id, content: string, ref: BlobRef, a: Id)
    requires Consistent(s) && BlobRefOk(s, tenant, content, ref) && a !in s.db.artifacts
    ensures var db' := WithArtifact(s.db, tenant, content, ref, a); BlobsOk(db'.artifacts, db'.blobs)
  {
    assert Holds(Blobs, s);
    var db' := WithArtifact(s.db, tenant, content, ref, a);
    forall b | b in db'.blobs ensures b in db'.artifacts.Values {
      if b == ref.id {
        assert db'.artifacts[a] == b;
      } else {
        assert b in s.db.artifacts.Values;
        var x :| x in s.db.artifacts && s.db.artifacts[x] == b;
        assert db'.artifacts[x] == b;
      }
    }
    forall b | b in db'.artifacts.Values ensures b in db'.blobs {
      var x :| x in db'.artifacts && db'.artifacts[x] == b;
      assert x != a ==> s.db.artifacts[x] in s.db.artifacts.Values;
    }
  }

  lemma ArtifactKeepsObjects(s: State, tenant: Id, content: string, ref: BlobRef, a: Id)
    requires Consistent(s) && BlobRefOk(s, tenant, content, ref)
    ensures var db' := WithArtifact(s.db, tenant, content, ref, a); ObjectsOk(db'.blobs, s.db.doomed, s.objects)
    ensures ref.id in s.spent
  {
    assert Holds(Objects, s) && Holds(StorageKeys, s) && Holds(Ids, s);
    if ref.Fresh? {
      assert Location(tenant, ref.id).key in s.spent;
    }
  }

  // An item can be added under these ids.
  predicate ItemFits(s: State, c: Id, source: string, parent: Option<Id>, container: Option<Id>, content: string, ref: BlobRef, i: Id, a: Id) {
    && CanAddItem(s, c, source, parent, container) && BlobRefOk(s, s.db.collections[c].tenant, content, ref)
    && i !in s.spent && a !in s.spent && i != a
  }

  lemma AddItemKeepsParents(s: State, c: Id, source: string, parent: Option<Id>, container: Option<Id>, content: string,
                            ref: BlobRef, i: Id, a: Id)
    requires Consistent(s) && ItemFits(s, c, source, parent, container, content, ref, i, a)
    ensures Holds(ItemRows, AddItem(s, c, source, parent, container, content, ref, i, a))
  {
    assert Holds(ItemRows, s);
    SpentRows(s, i);
    var items := s.db.items[i := Item(c, source, parent)];
    forall k ensures ParentInside(items, k) {
      assert ParentInside(s.db.items, k);
    }
  }

  lemma AddItemKeepsLinks(s: State, c: Id, source: string, parent: Option<Id>, container: Option<Id>, content: string,
                          ref: BlobRef, i: Id, a: Id)
    requires Consistent(s) && ItemFits(s, c, source, parent, container, content, ref, i, a)
    ensures Holds(Links, AddItem(s, c, source, parent, container, content, ref, i, a))
  {
    assert Holds(Links, s);
    SpentRows(s, i);
    SpentRows(s, a);
    LinkAdded(s, c, i, parent, source, container, a);
  }

  // The rules about blobs and ids.
  predicate AboutBlobs(rule: Rule) {
    rule == Blobs || rule == Objects || rule == Ids
  }

  lemma AddItemKeepsBlobs(s: State, c: Id, source: string, parent: Option<Id>, container: Option<Id>, content: string,
                          ref: BlobRef, i: Id, a: Id, rule: Rule)
    requires Consistent(s) && ItemFits(s, c, source, parent, container, content, ref, i, a) && AboutBlobs(rule)
    ensures Holds(rule, AddItem(s, c, source, parent, container, content, ref, i, a))
  {
    assert Holds(rule, s);
    SpentRows(s, a);
    ArtifactKeepsBlobs(s, s.db.collections[c].tenant, content, ref, a);
    ArtifactKeepsObjects(s, s.db.collections[c].tenant, content, ref, a);
  }

  lemma AddItemKeepsRest(s: State, c: Id, source: string, parent: Option<Id>, container: Option<Id>, content: string,
                         ref: BlobRef, i: Id, a: Id, rule: Rule)
    requires Consistent(s) && ItemFits(s, c, source, parent, container, content, ref, i, a)
    requires !AboutBlobs(rule) && rule != ItemRows && rule != Links
    ensures Holds(rule, AddItem(s, c, source, parent, container, content, ref, i, a))
  {
    assert Holds(rule, s);
    SpentRows(s, i);
    SpentRows(s, a);
  }

  lemma AddItemKeeps(s: State, c: Id, source: string, parent: Option<Id>, container: Option<Id>, content: string,
                     ref: BlobRef, i: Id, a: Id)
    requires Consistent(s)
    ensures Consistent(AddItem(s, c, source, parent, container, content, ref, i, a))
  {
    if ItemFits(s, c, source, parent, container, content, ref, i, a) {
      forall rule ensures Holds(rule, AddItem(s, c, source, parent, container, content, ref, i, a)) {
        if rule == ItemRows {
          AddItemKeepsParents(s, c, source, parent, container, content, ref, i, a);
        } else if rule == Links {
          AddItemKeepsLinks(s, c, source, parent, container, content, ref, i, a);
        } else if AboutBlobs(rule) {
          AddItemKeepsBlobs(s, c, source, parent, container, content, ref, i, a, rule);
        } else {
          AddItemKeepsRest(s, c, source, parent, container, content, ref, i, a, rule);
        }
      }
    }
  }

  // No row has an id that was not handed out.
  lemma SpentRows(s: State, k: Id)
    requires Consistent(s) && k !in s.spent
    ensures k !in s.db.collections && k !in s.db.items && k !in s.db.artifacts && k !in s.db.blobs && k !in s.db.doomed && k !in s.db.jobs
    ensures k !in s.db.itemLinks && k !in s.db.collectionLinks
  {
    assert Holds(Ids, s) && Holds(JobIds, s) && Holds(Links, s);
  }

  lemma LinkAdded(s: State, c: Id, i: Id, parent: Option<Id>, source: string, container: Option<Id>, a: Id)
    requires Holds(Links, s) && a !in s.db.artifacts && i !in s.db.items
    requires container.Some? ==> container.value in s.db.collectionLinks
    ensures LinksOk(s.db.collections.Keys, s.db.items[i := Item(c, source, parent)].Keys, s.db.artifacts.Keys + {a},
                    s.db.itemLinks[a := ItemLink(i, "NATIVE", None)], s.db.collectionLinks,
                    if container.Some? then s.db.lineage + {(a, container.value)} else s.db.lineage)
  {
  }

  lemma ContainerLinkAdded(s: State, c: Id, a: Id)
    requires Holds(Links, s) && a !in s.db.artifacts && c in s.db.collections
    ensures LinksOk(s.db.collections.Keys, s.db.items.Keys, s.db.artifacts.Keys + {a}, s.db.itemLinks, s.db.collectionLinks[a := c], s.db.lineage)
  {
  }

  predicate CanAddContainer(s: State, c: Id, content: string, ref: BlobRef, a: Id) {
    c in s.db.collections && s.db.collections[c].status == Open && BlobRefOk(s, s.db.collections[c].tenant, content, ref) && a !in s.spent
  }

  lemma AddContainerKeepsBlobs(s: State, c: Id, content: string, ref: BlobRef, a: Id, rule: Rule)
    requires Consistent(s) && CanAddContainer(s, c, content, ref, a) && AboutBlobs(rule)
    ensures Holds(rule, AddContainer(s, c, content, ref, a))
  {
    assert Holds(rule, s);
    SpentRows(s, a);
    ArtifactKeepsBlobs(s, s.db.collections[c].tenant, content, ref, a);
    ArtifactKeepsObjects(s, s.db.collections[c].tenant, content, ref, a);
  }

  lemma AddContainerKeepsRest(s: State, c: Id, content: string, ref: BlobRef, a: Id, rule: Rule)
    requires Consistent(s) && CanAddContainer(s, c, content, ref, a) && !AboutBlobs(rule)
    ensures Holds(rule, AddContainer(s, c, content, ref, a))
  {
    assert Holds(rule, s);
    SpentRows(s, a);
    if rule == Links {
      ContainerLinkAdded(s, c, a);
    }
  }

  lemma AddContainerKeeps(s: State, c: Id, content: string, ref: BlobRef, a: Id)
    requires Consistent(s)
    ensures Consistent(AddContainer(s, c, content, ref, a))
  {
    if CanAddContainer(s, c, content, ref, a) {
      forall rule ensures Holds(rule, AddContainer(s, c, content, ref, a)) {
        if AboutBlobs(rule) {
          AddContainerKeepsBlobs(s, c, content, ref, a, rule);
        } else {
          AddContainerKeepsRest(s, c, content, ref, a, rule);
        }
      }
    }
  }

  predicate DerivedFits(s: State, i: Id, role: string, key: string, origin: Id, content: string, ref: BlobRef, a: Id) {
    && CanDerive(s.db, i, role, key, origin) && a !in s.spent
    && BlobRefOk(s, s.db.collections[s.db.items[i].collection].tenant, content, ref)
  }

  lemma AddDerivedKeepsBlobs(s: State, i: Id, role: string, key: string, origin: Id, content: string, ref: BlobRef, a: Id, rule: Rule)
    requires Consistent(s) && DerivedFits(s, i, role, key, origin, content, ref, a) && AboutBlobs(rule)
    ensures Holds(rule, AddDerived(s, i, role, key, origin, content, ref, a))
  {
    assert Holds(rule, s);
    SpentRows(s, a);
    ArtifactKeepsBlobs(s, s.db.collections[s.db.items[i].collection].tenant, content, ref, a);
    ArtifactKeepsObjects(s, s.db.collections[s.db.items[i].collection].tenant, content, ref, a);
  }

  lemma AddDerivedKeepsRest(s: State, i: Id, role: string, key: string, origin: Id, content: string, ref: BlobRef, a: Id, rule: Rule)
    requires Consistent(s) && DerivedFits(s, i, role, key, origin, content, ref, a) && !AboutBlobs(rule)
    ensures Holds(rule, AddDerived(s, i, role, key, origin, content, ref, a))
  {
    assert Holds(rule, s);
    SpentRows(s, a);
  }

  lemma AddDerivedKeeps(s: State, i: Id, role: string, key: string, origin: Id, content: string, ref: BlobRef, a: Id)
    requires Consistent(s)
    ensures Consistent(AddDerived(s, i, role, key, origin, content, ref, a))
  {
    if DerivedFits(s, i, role, key, origin, content, ref, a) {
      forall rule ensures Holds(rule, AddDerived(s, i, role, key, origin, content, ref, a)) {
        if AboutBlobs(rule) {
          AddDerivedKeepsBlobs(s, i, role, key, origin, content, ref, a, rule);
        } else {
          AddDerivedKeepsRest(s, i, role, key, origin, content, ref, a, rule);
        }
      }
    }
  }

  // ---------------------------------------------------------------- every step, every run

  lemma AddCollectionKeeps(s: State, c: Id, tenant: Id)
    requires Consistent(s)
    ensures Consistent(AddCollection(s, c, tenant))
  {
    forall rule ensures Holds(rule, AddCollection(s, c, tenant)) {
      assert Holds(rule, s);
    }
  }

  lemma ChangeStatusKeeps(s: State, c: Id, status: CollectionStatus)
    requires Consistent(s)
    ensures Consistent(ChangeStatus(s, c, status))
  {
    WithStatusKeeps(s, c, status);
  }

  lemma AddSelectionKeeps(s: State, l: Id, c: Id, items: set<Id>)
    requires Consistent(s)
    ensures Consistent(AddSelection(s, l, c, items))
  {
    forall rule ensures Holds(rule, AddSelection(s, l, c, items)) {
      assert Holds(rule, s);
    }
  }

  lemma RemoveSelectionKeeps(s: State, l: Id)
    requires Consistent(s)
    ensures Consistent(RemoveSelection(s, l))
  {
    forall rule ensures Holds(rule, RemoveSelection(s, l)) {
      assert Holds(rule, s);
    }
  }

  lemma StartRunKeeps(s: State, r: Id, c: Id)
    requires Consistent(s)
    ensures Consistent(StartRun(s, r, c))
  {
    forall rule ensures Holds(rule, StartRun(s, r, c)) {
      assert Holds(rule, s);
    }
  }

  lemma EndRunKeeps(s: State, r: Id)
    requires Consistent(s)
    ensures Consistent(EndRun(s, r))
  {
    forall rule ensures Holds(rule, EndRun(s, r)) {
      assert Holds(rule, s);
    }
  }

  lemma UploadStepKeeps(s: State, step: Step)
    requires Consistent(s) && (step.SPutObject? || step.SAddItem? || step.SAddContainer? || step.SAddDerived?)
    ensures Consistent(Apply(s, step))
  {
    if step.SPutObject? {
      PutObjectKeeps(s, step.tenant, step.key, step.content);
    } else if step.SAddItem? {
      AddItemKeeps(s, step.c, step.source, step.parent, step.container, step.content, step.ref, step.i, step.a);
    } else if step.SAddContainer? {
      AddContainerKeeps(s, step.c, step.content, step.ref, step.a);
    } else {
      AddDerivedKeeps(s, step.i, step.role, step.derivationKey, step.origin, step.content, step.ref, step.a);
    }
  }

  // The steps of a deletion job.
  predicate OfDeletion(step: Step) {
    || step.SCreateJob? || step.SRetry? || step.SValidate? || step.SPrepare? || step.SItemBatch?
    || step.SRecord? || step.SBlobBatch? || step.SInterrupted? || step.SComplete? || step.SFail?
  }

  lemma DeletionStepKeeps(s: State, step: Step)
    requires Consistent(s) && OfDeletion(step)
    ensures Consistent(Apply(s, step))
  {
    match step
    case SCreateJob(c, j, createdAt) => CreateJobKeeps(s, c, j, createdAt);
    case SRetry(j) => RetryKeeps(s, j);
    case SValidate(j) => AdvanceKeeps(s, j, Validating);
    case SPrepare(j) => PrepareKeeps(s, j);
    case SItemBatch(j, batch) => ItemBatchKeeps(s, j, batch);
    case SRecord(j) => RecordKeeps(s, j);
    case SBlobBatch(j, batch) => BlobBatchKeeps(s, j, batch);
    case SInterrupted(j, batch) => ObjectsGoneKeeps(s, batch);
    case SComplete(j) => CompleteKeeps(s, j);
    case SFail(j) => FailKeeps(s, j);
  }

  lemma CollectionStepKeeps(s: State, step: Step)
    requires Consistent(s) && (step.SChangeStatus? || step.SAddCollection?)
    ensures Consistent(Apply(s, step))
  {
    if step.SChangeStatus? {
      ChangeStatusKeeps(s, step.c, step.status);
    } else {
      AddCollectionKeeps(s, step.c, step.tenant);
    }
  }

  lemma SelectionStepKeeps(s: State, step: Step)
    requires Consistent(s) && (step.SAddSelection? || step.SRemoveSelection?)
    ensures Consistent(Apply(s, step))
  {
    if step.SAddSelection? {
      AddSelectionKeeps(s, step.l, step.c, step.items);
    } else {
      RemoveSelectionKeeps(s, step.l);
    }
  }

  lemma RunStepKeeps(s: State, step: Step)
    requires Consistent(s) && (step.SStartRun? || step.SEndRun?)
    ensures Consistent(Apply(s, step))
  {
    if step.SStartRun? {
      StartRunKeeps(s, step.r, step.c);
    } else {
      EndRunKeeps(s, step.r);
    }
  }

  // Every step keeps every rule.
  lemma StepKeeps(s: State, step: Step)
    requires Consistent(s)
    ensures Consistent(Apply(s, step))
  {
    if OfDeletion(step) {
      DeletionStepKeeps(s, step);
    } else if step.SPutObject? || step.SAddItem? || step.SAddContainer? || step.SAddDerived? {
      UploadStepKeeps(s, step);
    } else if step.SChangeStatus? || step.SAddCollection? {
      CollectionStepKeeps(s, step);
    } else if step.SAddSelection? || step.SRemoveSelection? {
      SelectionStepKeeps(s, step);
    } else {
      RunStepKeeps(s, step);
    }
  }

  lemma {:induction false} RunKeeps(s: State, steps: seq<Step>)
    requires Consistent(s)
    ensures Consistent(After(s, steps))
    decreases |steps|
  {
    if steps != [] {
      RunKeeps(s, steps[..|steps| - 1]);
      StepKeeps(After(s, steps[..|steps| - 1]), steps[|steps| - 1]);
    }
  }

  lemma EmptyIsConsistent()
    ensures Consistent(EMPTY)
  {
    forall rule ensures Holds(rule, EMPTY) {
    }
  }

  // ---------------------------------------------------------------- main results over every run

  // In every reachable state the object of every live blob row is stored, with the blob's bytes.
  lemma LiveBlobsAreStored(steps: seq<Step>, b: Id)
    requires b in After(EMPTY, steps).db.blobs
    ensures var s := After(EMPTY, steps);
      var blob := s.db.blobs[b];
      blob.place in s.objects && s.objects[blob.place] == blob.content
  {
    EmptyIsConsistent();
    RunKeeps(EMPTY, steps);
    assert Holds(Objects, After(EMPTY, steps));
  }

  // In every run a collection has one active deletion job at most.
  lemma OneActiveJob(steps: seq<Step>, j: Id, k: Id)
    requires var jobs := After(EMPTY, steps).db.jobs;
      && j in jobs && k in jobs && jobs[j].collection == jobs[k].collection && Active(jobs[j].status) && Active(jobs[k].status)
    ensures j == k
  {
    EmptyIsConsistent();
    RunKeeps(EMPTY, steps);
    JobOf(After(EMPTY, steps), j);
  }

  // In every run, also after completion, blob_count less deleted_blob_count is the number of PENDING rows.
  lemma PendingRowsAreCounted(steps: seq<Step>, j: Id)
    requires j in After(EMPTY, steps).db.jobs
    ensures var s := After(EMPTY, steps); s.db.jobs[j].blobCount - s.db.jobs[j].deletedBlobs == |PendingOf(s.db.doomed, j)|
  {
    EmptyIsConsistent();
    RunKeeps(EMPTY, steps);
    CountOf(After(EMPTY, steps), j);
  }

  // A blob whose key is not that of a live row, and can never be one again.
  ghost predicate Retired(s: State, b: Id) {
    && b in s.spent && b !in s.db.blobs
    && (b in s.db.doomed || forall p :: p in s.objects ==> p.key != b)
  }

  // A live row stays as it is, or is unlinked and scheduled, which happens only when no artifact refers to it.
  ghost predicate LiveOrScheduled(s: State, s': State, b: Id)
    requires b in s.db.blobs
  {
    if b in s'.db.blobs then s'.db.blobs[b] == s.db.blobs[b]
    else b !in s'.db.artifacts.Values && b in s'.db.doomed && s'.db.doomed[b].place == s.db.blobs[b].place && !s'.db.doomed[b].deleted
  }

  lemma RemovalFate(s: State, j: Id, dead: set<Id>, b: Id)
    requires Consistent(s) && j in s.db.jobs
    ensures b in s.db.blobs ==> LiveOrScheduled(s, Removed(s, j, dead), b)
    ensures Retired(s, b) ==> Retired(Removed(s, j, dead), b)
  {
    assert Holds(Blobs, s) && Holds(Objects, s);
    OrphansAreUnreferenced(s.db.artifacts, s.db.blobs, dead);
  }

  lemma UploadFate(s: State, tenant: Id, content: string, ref: BlobRef, a: Id, b: Id)
    requires BlobRefOk(s, tenant, content, ref)
    ensures var blobs' := WithArtifact(s.db, tenant, content, ref, a).blobs;
      && (b in s.db.blobs ==> b in blobs' && blobs'[b] == s.db.blobs[b])
      && (Retired(s, b) ==> b !in blobs')
  {
    if ref == Fresh(b) {
      assert Location(tenant, b) in s.objects && Location(tenant, b).key == b;
    }
  }

  lemma CompleteFate(s: State, j: Id, b: Id)
    requires Consistent(s)
    ensures b in s.db.blobs ==> LiveOrScheduled(s, Complete(s, j), b)
    ensures Retired(s, b) ==> Retired(Complete(s, j), b)
  {
    assert Holds(Objects, s);
    if j in s.db.jobs && PendingOf(s.db.doomed, j) == {} && b in RowsOf(s.db.doomed, j) {
      assert b !in PendingOf(s.db.doomed, j);
      assert s.db.doomed[b].place !in s.objects;
    }
  }

  lemma AddItemFate(s: State, c: Id, source: string, parent: Option<Id>, container: Option<Id>, content: string, ref: BlobRef, i: Id, a: Id, b: Id)
    requires Consistent(s)
    ensures var s' := AddItem(s, c, source, parent, container, content, ref, i, a);
      (b in s.db.blobs ==> LiveOrScheduled(s, s', b)) && (Retired(s, b) ==> Retired(s', b))
  {
    if ItemFits(s, c, source, parent, container, content, ref, i, a) {
      UploadFate(s, s.db.collections[c].tenant, content, ref, a, b);
    }
  }

  lemma AddContainerFate(s: State, c: Id, content: string, ref: BlobRef, a: Id, b: Id)
    requires Consistent(s)
    ensures var s' := AddContainer(s, c, content, ref, a);
      (b in s.db.blobs ==> LiveOrScheduled(s, s', b)) && (Retired(s, b) ==> Retired(s', b))
  {
    if CanAddContainer(s, c, content, ref, a) {
      UploadFate(s, s.db.collections[c].tenant, content, ref, a, b);
    }
  }

  lemma AddDerivedFate(s: State, i: Id, role: string, key: string, origin: Id, content: string, ref: BlobRef, a: Id, b: Id)
    requires Consistent(s)
    ensures var s' := AddDerived(s, i, role, key, origin, content, ref, a);
      (b in s.db.blobs ==> LiveOrScheduled(s, s', b)) && (Retired(s, b) ==> Retired(s', b))
  {
    if DerivedFits(s, i, role, key, origin, content, ref, a) {
      UploadFate(s, s.db.collections[s.db.items[i].collection].tenant, content, ref, a, b);
    }
  }

  lemma UploadStepFate(s: State, step: Step, b: Id)
    requires Consistent(s) && (step.SAddItem? || step.SAddContainer? || step.SAddDerived?)
    ensures b in s.db.blobs ==> LiveOrScheduled(s, Apply(s, step), b)
    ensures Retired(s, b) ==> Retired(Apply(s, step), b)
  {
    match step
    case SAddItem(c, source, parent, container, content, ref, i, a) => AddItemFate(s, c, source, parent, container, content, ref, i, a, b);
    case SAddContainer(c, content, ref, a) => AddContainerFate(s, c, content, ref, a, b);
    case SAddDerived(i, role, key, origin, content, ref, a) => AddDerivedFate(s, i, role, key, origin, content, ref, a, b);
  }

  lemma ItemBatchFate(s: State, j: Id, batch: set<Id>, b: Id)
    requires Consistent(s)
    ensures b in s.db.blobs ==> LiveOrScheduled(s, ItemBatch(s, j, batch), b)
    ensures Retired(s, b) ==> Retired(ItemBatch(s, j, batch), b)
  {
    if CanDeleteItems(s.db, j, batch) {
      RemovalFate(s, j, ArtifactsOfItems(s.db.itemLinks, batch), b);
    }
  }

  lemma WithoutRecordFate(s: State, j: Id, c: Id, b: Id)
    requires Consistent(s) && j in s.db.jobs
    ensures b in s.db.blobs ==> LiveOrScheduled(s, WithoutRecord(s, j, c), b)
    ensures Retired(s, b) ==> Retired(WithoutRecord(s, j, c), b)
  {
    RemovalFate(s, j, ContainersOf(s.db.collectionLinks, c), b);
  }

  lemma RecordFate(s: State, j: Id, b: Id)
    requires Consistent(s)
    ensures b in s.db.blobs ==> LiveOrScheduled(s, Record(s, j), b)
    ensures Retired(s, b) ==> Retired(Record(s, j), b)
  {
    if RecordError(s.db, j) == None && s.db.jobs[j].collection in s.db.collections {
      WithoutRecordFate(s, j, s.db.jobs[j].collection, b);
    }
  }

  lemma ObjectStepFate(s: State, step: Step, b: Id)
    requires step.SPutObject? || step.SBlobBatch? || step.SInterrupted?
    ensures b in s.db.blobs ==> LiveOrScheduled(s, Apply(s, step), b)
    ensures Retired(s, b) ==> Retired(Apply(s, step), b)
  {
  }

  lemma QuietStepFate(s: State, step: Step, b: Id)
    requires SameStorage(s, Apply(s, step))
    ensures b in s.db.blobs ==> LiveOrScheduled(s, Apply(s, step), b)
    ensures Retired(s, b) ==> Retired(Apply(s, step), b)
  {
  }

  // The fate of every blob under every step: no live row is changed or lost, none is unlinked while it is
  // referred to, and re-uploaded bytes never get a retired key.
  lemma BlobFate(s: State, step: Step, b: Id)
    requires Consistent(s)
    ensures b in s.db.blobs ==> LiveOrScheduled(s, Apply(s, step), b)
    ensures Retired(s, b) ==> Retired(Apply(s, step), b)
  {
    if step.SAddItem? || step.SAddContainer? || step.SAddDerived? {
      UploadStepFate(s, step, b);
    } else if step.SPutObject? || step.SBlobBatch? || step.SInterrupted? {
      ObjectStepFate(s, step, b);
    } else if step.SItemBatch? {
      ItemBatchFate(s, step.j, step.batch, b);
    } else if step.SRecord? {
      RecordFate(s, step.j, b);
    } else if step.SComplete? {
      CompleteFate(s, step.j, b);
    } else {
      QuietStepFate(s, step, b);
    }
  }

  // Over any run: a blob that was live once is live still, unchanged, or retired for good.
  lemma {:induction false} LiveOrRetired(s: State, steps: seq<Step>, b: Id)
    requires Consistent(s) && (b in s.db.blobs || Retired(s, b))
    ensures var s' := After(s, steps);
      if b in s'.db.blobs then b in s.db.blobs && s'.db.blobs[b] == s.db.blobs[b] else Retired(s', b)
    decreases |steps|
  {
    if steps != [] {
      var front := steps[..|steps| - 1];
      LiveOrRetired(s, front, b);
      RunKeeps(s, front);
      BlobFate(After(s, front), steps[|steps| - 1], b);
      if b in After(s, front).db.blobs { SpentBlob(After(s, front), b); }
    }
  }

  lemma SpentBlob(s: State, b: Id)
    requires Consistent(s) && b in s.db.blobs
    ensures b in s.spent
  {
    assert Holds(Ids, s);
  }
}
