/**
  What a failed deletion does with its collection: handed back as it was while nothing of it is deleted, and kept
  DELETING otherwise.
 */
module DeletionReopening {
  import opened Common
  import opened ArtifactState
  import opened DeletionSpec
  import opened DeletionSafety
  import opened DeletionOutcome
  import opened DeletionCounts
  import opened DeletionCourse

  // ---------------------------------------------------------------- what the job's own steps do to it

  // What a job never changes about itself.
  predicate SameOrigin(before: Job, after: Job) {
    after.collection == before.collection && after.previousStatus == before.previousStatus
  }

  // Blobs are scheduled only together with artifacts.
  predicate BlobsComeFromArtifacts(job: Job) {
    job.blobCount > 0 ==> job.deletedArtifacts > 0
  }

  // An own step of a job keeps its origin and what its counters say.
  ghost predicate JobGoesOn(jobs: map<Id, Job>, after: map<Id, Job>, j: Id) {
    && j in jobs && j in after && SameOrigin(jobs[j], after[j])
    && (BlobsComeFromArtifacts(jobs[j]) ==> BlobsComeFromArtifacts(after[j]))
  }

  lemma RemovedJob(s: State, j: Id, dead: set<Id>)
    requires j in s.db.jobs
    ensures var after := Removed(s, j, dead).db.jobs;
      j in after && after[j] == s.db.jobs[j].(blobCount := after[j].blobCount) && (dead == {} ==> after[j] == s.db.jobs[j])
  {
    if dead == {} {
      assert Orphans(s.db.artifacts, s.db.blobs, dead) == {};
    }
  }

  lemma CountedJob(s: State, j: Id, items: nat, artifacts: nat)
    requires j in s.db.jobs
    ensures Counted(s, j, items, artifacts).db.jobs[j]
         == s.db.jobs[j].(deletedItems := s.db.jobs[j].deletedItems + items, deletedArtifacts := s.db.jobs[j].deletedArtifacts + artifacts)
  {
  }

  lemma NonemptyHasSize(dead: set<Id>)
    ensures |dead| == 0 ==> dead == {}
  {
  }

  // The job after the artifacts `dead` are removed and they and some items are counted.
  lemma CountingGoesOn(jobs: map<Id, Job>, s: State, j: Id, items: nat, dead: set<Id>)
    requires j in jobs && j in s.db.jobs && s.db.jobs[j] == jobs[j].(blobCount := s.db.jobs[j].blobCount)
    requires dead == {} ==> s.db.jobs[j] == jobs[j]
    ensures JobGoesOn(jobs, Counted(s, j, items, |dead|).db.jobs, j)
  {
    NonemptyHasSize(dead);
    CountedJob(s, j, items, |dead|);
  }

  lemma RowsGoneJobs(s: State, batch: set<Id>, c: Id)
    ensures WithoutItems(s, batch).db.jobs == s.db.jobs && WithoutCollection(s, c).db.jobs == s.db.jobs
  {
  }

  lemma ItemBatchJob(s: State, j: Id, batch: set<Id>)
    requires j in s.db.jobs
    ensures JobGoesOn(s.db.jobs, ItemBatch(s, j, batch).db.jobs, j)
  {
    if CanDeleteItems(s.db, j, batch) {
      var dead := ArtifactsOfItems(s.db.itemLinks, batch);
      RemovedJob(s, j, dead);
      var s1 := Removed(s, j, dead);
      RowsGoneJobs(s1, batch, 0);
      CountingGoesOn(s.db.jobs, WithoutItems(s1, batch), j, |batch|, dead);
    }
  }

  lemma WithoutRecordGoesOn(s: State, j: Id, c: Id)
    requires j in s.db.jobs
    ensures JobGoesOn(s.db.jobs, WithoutRecord(s, j, c).db.jobs, j)
  {
    var dead := ContainersOf(s.db.collectionLinks, c);
    RemovedJob(s, j, dead);
    var s1 := Removed(s, j, dead);
    RowsGoneJobs(s1, {}, c);
    CountingGoesOn(s.db.jobs, WithoutCollection(s1, c), j, 0, dead);
  }

  lemma RecordJob(s: State, j: Id)
    requires j in s.db.jobs
    ensures JobGoesOn(s.db.jobs, Record(s, j).db.jobs, j)
  {
    if RecordError(s.db, j) == None {
      RecordSteps(s, j);
      WithoutRecordGoesOn(s, j, s.db.jobs[j].collection);
    }
  }

  // Neither the origin of a job changes nor the counters that tell whether something was deleted.
  predicate SameCounters(before: Job, after: Job) {
    && SameOrigin(before, after)
    && after.deletedItems == before.deletedItems && after.deletedArtifacts == before.deletedArtifacts && after.blobCount == before.blobCount
  }

  // Every collection keeps its items.
  ghost predicate SameItems(items: map<Id, Item>, after: map<Id, Item>) {
    forall c :: ItemsOf(after, c) == ItemsOf(items, c)
  }

  ghost predicate Steady(s: State, after: State, j: Id) {
    && j in s.db.jobs && j in after.db.jobs && SameCounters(s.db.jobs[j], after.db.jobs[j])
    && after.db.itemLinks == s.db.itemLinks && after.db.collectionLinks == s.db.collectionLinks
    && SameItems(s.db.items, after.db.items)
  }

  lemma JobSteady(s: State, s1: State, j: Id, job: Job)
    requires Steady(s, s1, j) && SameCounters(s.db.jobs[j], job)
    ensures Steady(s, SetJob(s1, j, job), j)
  {
  }

  lemma SelfSteady(s: State, j: Id)
    requires j in s.db.jobs
    ensures Steady(s, s, j) && forall c, status :: Steady(s, WithStatus(s, c, status), j)
  {
  }

  predicate CanRetry(s: State, j: Id) {
    j in s.db.jobs && s.db.jobs[j].status == Failed && !ActiveElsewhere(s.db.jobs, j, s.db.jobs[j].collection)
  }

  lemma RetrySteps(s: State, j: Id)
    requires j in s.db.jobs
    ensures var job := s.db.jobs[j];
      Retry(s, j) == if CanRetry(s, j) then SetJob(WithStatus(s, job.collection, Deleting), j, job.(status := Queued, attempts := job.attempts + 1)) else s
  {
  }

  lemma RetrySteady(s: State, j: Id)
    requires j in s.db.jobs
    ensures Steady(s, Retry(s, j), j)
  {
    var job := s.db.jobs[j];
    RetrySteps(s, j);
    SelfSteady(s, j);
    if CanRetry(s, j) {
      JobSteady(s, WithStatus(s, job.collection, Deleting), j, job.(status := Queued, attempts := job.attempts + 1));
    }
  }

  lemma FailSteady(s: State, j: Id)
    requires j in s.db.jobs
    ensures Steady(s, Fail(s, j), j)
  {
    var job := s.db.jobs[j];
    SelfSteady(s, j);
    JobSteady(s, s, j, job.(status := Failed));
    JobSteady(s, WithStatus(s, job.collection, job.previousStatus), j, job.(status := Failed));
  }

  lemma AdvanceSteady(s: State, s1: State, j: Id, status: JobStatus)
    requires Steady(s, s1, j)
    ensures Steady(s, Advance(s1, j, status), j)
  {
    JobSteady(s, s1, j, s1.db.jobs[j].(status := status));
  }

  lemma SameHomes(items: map<Id, Item>, c: Id)
    ensures SameItems(items, Unparented(items, c))
  {
    forall d ensures ItemsOf(Unparented(items, c), d) == ItemsOf(items, d) {
    }
  }

  lemma PrepareSteady(s: State, j: Id)
    requires j in s.db.jobs
    ensures Steady(s, Prepare(s, j), j)
  {
    SelfSteady(s, j);
    SameHomes(s.db.items, s.db.jobs[j].collection);
    AdvanceSteady(s, s.(db := s.db.(items := Unparented(s.db.items, s.db.jobs[j].collection))), j, DeletingRows);
  }

  lemma MarkingSteady(s: State, j: Id, batch: set<Id>)
    requires j in s.db.jobs
    ensures var s1 := s.(db := s.db.(doomed := Marked(s.db.doomed, batch)), objects := ObjectsWithout(s.objects, s.db.doomed, batch));
      Steady(s, s1, j) && s1.db.jobs == s.db.jobs
  {
  }

  lemma MarkedBatchSteady(s: State, s1: State, j: Id, batch: set<Id>)
    requires Steady(s, s1, j) && s1.db.jobs == s.db.jobs
    ensures Steady(s, SetJob(s1, j, s.db.jobs[j].(deletedBlobs := s.db.jobs[j].deletedBlobs + |batch|)), j)
  {
    JobSteady(s, s1, j, s.db.jobs[j].(deletedBlobs := s.db.jobs[j].deletedBlobs + |batch|));
  }

  lemma BlobBatchSteady(s: State, j: Id, batch: set<Id>)
    requires j in s.db.jobs
    ensures Steady(s, BlobBatch(s, j, batch), j)
  {
    if batch <= PendingOf(s.db.doomed, j) {
      MarkingSteady(s, j, batch);
      MarkedBatchSteady(s, s.(db := s.db.(doomed := Marked(s.db.doomed, batch)), objects := ObjectsWithout(s.objects, s.db.doomed, batch)), j, batch);
    } else {
      assert BlobBatch(s, j, batch) == s;
      SelfSteady(s, j);
    }
  }

  lemma InterruptedSteady(s: State, j: Id, batch: set<Id>)
    requires j in s.db.jobs
    ensures Steady(s, InterruptedBlobBatch(s, j, batch), j)
  {
    SelfSteady(s, j);
  }

  lemma CompleteSteady(s: State, j: Id)
    requires j in s.db.jobs
    ensures Steady(s, Complete(s, j), j)
  {
    SelfSteady(s, j);
    JobSteady(s, s.(db := s.db.(doomed := Keep(s.db.doomed, RowsOf(s.db.doomed, j)))), j, s.db.jobs[j].(status := Completed));
  }

  lemma OtherStepSteady(s: State, step: Step, j: Id)
    requires j in s.db.jobs && OwnStep(step, j) && !step.SItemBatch? && !step.SRecord?
    ensures Steady(s, Apply(s, step), j)
  {
    match step
    case SRetry(_) => RetrySteady(s, j);
    case SValidate(_) => SelfSteady(s, j); AdvanceSteady(s, s, j, Validating);
    case SPrepare(_) => PrepareSteady(s, j);
    case SBlobBatch(_, batch) => BlobBatchSteady(s, j, batch);
    case SInterrupted(_, batch) => InterruptedSteady(s, j, batch);
    case SComplete(_) => CompleteSteady(s, j);
    case SFail(_) => FailSteady(s, j);
  }

  lemma OwnStepJob(s: State, step: Step, j: Id)
    requires j in s.db.jobs && OwnStep(step, j)
    ensures JobGoesOn(s.db.jobs, Apply(s, step).db.jobs, j)
  {
    match step
    case SItemBatch(_, batch) => ItemBatchJob(s, j, batch);
    case SRecord(_) => RecordJob(s, j);
    case _ => OtherStepSteady(s, step, j);
  }

  // ---------------------------------------------------------------- the collection

  // Neither an item nor an artifact was counted as deleted, nor a blob as scheduled.
  predicate Untouched(job: Job) {
    job.deletedItems == 0 && job.deletedArtifacts == 0 && job.blobCount == 0
  }

  // What an own step of the job makes of the collection rows.
  predicate NextCollections(s: State, step: Step, j: Id, after: map<Id, Collection>)
    requires j in s.db.jobs
  {
    var job, before := s.db.jobs[j], s.db.collections;
    if step.SRetry? && CanRetry(s, j) then after == SetStatus(before, job.collection, Deleting)
    else if step.SFail? && Untouched(job) then after == SetStatus(before, job.collection, job.previousStatus)
    else if step.SRecord? && RecordError(s.db, j) == None then after == Keep(before, {job.collection})
    else after == before
  }

  lemma OwnStepCollections(s: State, step: Step, j: Id)
    requires j in s.db.jobs && OwnStep(step, j)
    ensures NextCollections(s, step, j, Apply(s, step).db.collections)
  {
    match step
    case SRecord(_) => RecordCollections(s, j);
    case SRetry(_) => RetrySteps(s, j);
    case SFail(_) =>
    case SItemBatch(_, batch) => ItemBatchCollections(s, j, batch);
    case _ => OtherStepCollections(s, step, j);
  }

  lemma BatchCollections(s: State, j: Id, dead: set<Id>, batch: set<Id>, items: nat)
    requires j in s.db.jobs
    ensures Removed(s, j, dead).db.collections == WithoutItems(s, batch).db.collections == s.db.collections
    ensures Counted(s, j, items, |dead|).db.collections == s.db.collections
  {
  }

  lemma ItemBatchCollections(s: State, j: Id, batch: set<Id>)
    requires j in s.db.jobs
    ensures ItemBatch(s, j, batch).db.collections == s.db.collections
  {
    if CanDeleteItems(s.db, j, batch) {
      var dead := ArtifactsOfItems(s.db.itemLinks, batch);
      var s1 := Removed(s, j, dead);
      BatchCollections(s, j, dead, batch, |batch|);
      BatchCollections(s1, j, dead, batch, |batch|);
      BatchCollections(WithoutItems(s1, batch), j, dead, batch, |batch|);
    }
  }

  lemma OtherStepCollections(s: State, step: Step, j: Id)
    requires j in s.db.jobs && OwnStep(step, j) && !step.SRecord? && !step.SRetry? && !step.SFail? && !step.SItemBatch?
    ensures Apply(s, step).db.collections == s.db.collections
  {
  }

  lemma RecordCollections(s: State, j: Id)
    requires j in s.db.jobs
    ensures Record(s, j).db.collections == if RecordError(s.db, j) == None then Keep(s.db.collections, {s.db.jobs[j].collection}) else s.db.collections
  {
    var c := s.db.jobs[j].collection;
    if RecordError(s.db, j) == None {
      RecordSteps(s, j);
      if c !in s.db.collections {
        assert Keep(s.db.collections, {c}) == s.db.collections;
      }
    }
  }

  // The collection rows are those of the start, but that c is DELETING or gone.
  predicate OnlyDeleting(start: map<Id, Collection>, c: Id, collections: map<Id, Collection>) {
    collections == start || collections == SetStatus(start, c, Deleting) || collections == Keep(start, {c})
  }

  lemma StatusTwice(start: map<Id, Collection>, c: Id, status: CollectionStatus, next: CollectionStatus)
    ensures SetStatus(SetStatus(start, c, status), c, next) == SetStatus(start, c, next)
    ensures SetStatus(Keep(start, {c}), c, next) == Keep(start, {c}) == Keep(SetStatus(start, c, status), {c}) == Keep(Keep(start, {c}), {c})
    ensures c in start ==> SetStatus(start, c, start[c].status) == start
  {
  }

  lemma OnlyDeletingGoesOn(start: map<Id, Collection>, c: Id, collections: map<Id, Collection>)
    requires c in start && OnlyDeleting(start, c, collections)
    ensures OnlyDeleting(start, c, SetStatus(collections, c, Deleting))
    ensures OnlyDeleting(start, c, SetStatus(collections, c, start[c].status))
    ensures OnlyDeleting(start, c, Keep(collections, {c}))
    ensures c in collections ==> SetStatus(collections, c, start[c].status) == start
  {
    StatusTwice(start, c, Deleting, Deleting);
    StatusTwice(start, c, Deleting, start[c].status);
  }

  // ---------------------------------------------------------------- the rows of the collection

  lemma FewerArtifacts(db: Database, j: Id, dead: set<Id>, c: Id)
    requires j in db.jobs
    ensures ArtifactsOf(WithoutArtifacts(db, j, dead), c) <= ArtifactsOf(db, c)
  {
    RemovedLinks(db.itemLinks, db.collectionLinks, dead, ItemsOf(db.items, c), c);
  }

  // No item and no artifact of the collection is new.
  ghost predicate NothingNew(before: Database, after: Database, c: Id) {
    ItemsOf(after.items, c) <= ItemsOf(before.items, c) && ArtifactsOf(after, c) <= ArtifactsOf(before, c)
  }

  lemma ItemBatchRows(s: State, j: Id, batch: set<Id>, c: Id)
    requires j in s.db.jobs
    ensures NothingNew(s.db, ItemBatch(s, j, batch).db, c)
  {
    if CanDeleteItems(s.db, j, batch) {
      FewerArtifacts(s.db, j, ArtifactsOfItems(s.db.itemLinks, batch), c);
    }
  }

  lemma RecordRows(s: State, j: Id, c: Id)
    requires j in s.db.jobs
    ensures NothingNew(s.db, Record(s, j).db, c)
  {
    if RecordError(s.db, j) == None {
      RecordSteps(s, j);
      FewerArtifacts(s.db, j, ContainersOf(s.db.collectionLinks, s.db.jobs[j].collection), c);
    }
  }

  lemma OwnStepRows(s: State, step: Step, j: Id, c: Id)
    requires j in s.db.jobs && OwnStep(step, j)
    ensures NothingNew(s.db, Apply(s, step).db, c)
  {
    match step
    case SItemBatch(_, batch) => ItemBatchRows(s, j, batch, c);
    case SRecord(_) => RecordRows(s, j, c);
    case _ => OtherStepSteady(s, step, j);
  }

  // ---------------------------------------------------------------- the job from its creation on

  // The job was created for collection c in state `start`, and only its own steps have been taken since.
  ghost predicate Since(start: State, c: Id, s: State, j: Id) {
    && c in start.db.collections && j in s.db.jobs
    && s.db.jobs[j].collection == c && s.db.jobs[j].previousStatus == start.db.collections[c].status
    && BlobsComeFromArtifacts(s.db.jobs[j])
    && OnlyDeleting(start.db.collections, c, s.db.collections)
    && NothingNew(start.db, s.db, c)
    && ItemTotal(s, j) == |ItemsOf(start.db.items, c)| && ArtifactTotal(s, j) == |ArtifactsOf(start.db, c)|
  }

  // create_deletion_job inserts a job with the new id j.
  ghost predicate Creates(start: State, c: Id, j: Id) {
    Consistent(start) && CanCreateJob(start.db, c) && j !in start.spent
  }

  lemma Created(start: State, c: Id, j: Id, createdAt: int)
    requires Creates(start, c, j)
    ensures var s := Apply(start, SCreateJob(c, j, createdAt));
      Consistent(s) && Since(start, c, s, j) && Untouched(s.db.jobs[j]) && s.db.collections[c].status == Deleting
      && s.db.jobs[j].status == Queued
  {
    SpentRows(start, j);
    CreateJobKeeps(start, c, j, createdAt);
  }

  lemma SinceOwnStep(start: State, c: Id, s: State, step: Step, j: Id)
    requires Consistent(s) && Since(start, c, s, j) && OwnStep(step, j)
    ensures Since(start, c, Apply(s, step), j)
  {
    OwnStepJob(s, step, j);
    OwnStepRows(s, step, j, c);
    OwnStepKeepsCourse(s, step, j);
    OwnStepCollections(s, step, j);
    OnlyDeletingGoesOn(start.db.collections, c, s.db.collections);
  }

  lemma {:induction false} SinceOwnSteps(start: State, c: Id, first: State, steps: seq<Step>, j: Id)
    requires Consistent(first) && Since(start, c, first, j) && OwnSteps(steps, j)
    ensures Consistent(After(first, steps)) && Since(start, c, After(first, steps), j)
    decreases |steps|
  {
    if steps != [] {
      var front := steps[..|steps| - 1];
      SinceOwnSteps(start, c, first, front, j);
      StepKeeps(After(first, front), steps[|steps| - 1]);
      SinceOwnStep(start, c, After(first, front), steps[|steps| - 1], j);
    }
  }

  // Every item and every artifact of collection c is there that was at the start.
  predicate AllThere(start: State, c: Id, s: State) {
    ItemsOf(s.db.items, c) == ItemsOf(start.db.items, c) && ArtifactsOf(s.db, c) == ArtifactsOf(start.db, c)
  }

  predicate IsDeleting(s: State, c: Id) {
    c in s.db.collections && s.db.collections[c].status == Deleting
  }

  // The counters are 0 exactly while every item and artifact is still there.
  lemma UntouchedMeansAll(start: State, c: Id, s: State, j: Id)
    requires Since(start, c, s, j)
    ensures Untouched(s.db.jobs[j]) <==> AllThere(start, c, s)
  {
    SameSize(ItemsOf(s.db.items, c), ItemsOf(start.db.items, c));
    SameSize(ArtifactsOf(s.db, c), ArtifactsOf(start.db, c));
  }

  lemma SameSize(a: set<Id>, b: set<Id>)
    requires a <= b
    ensures |a| <= |b| && (|a| == |b| <==> a == b)
  {
    ShrinkBy(b, a);
    NonemptyHasSize(b - a);
  }

  // ---------------------------------------------------------------- a collection with something deleted

  // Once something of c is deleted and c is still there, it is DELETING.
  ghost predicate HalfDeletedIsDeleting(s: State, c: Id, j: Id) {
    j in s.db.jobs && (c in s.db.collections && !Untouched(s.db.jobs[j]) ==> s.db.collections[c].status == Deleting)
  }

  // The step deletes items of a collection that has been handed back and not been taken again by a retry.
  predicate DeletesFromReopened(s: State, c: Id, step: Step, j: Id) {
    && step.SItemBatch? && CanDeleteItems(s.db, j, step.batch) && step.batch != {}
    && c in s.db.collections && s.db.collections[c].status != Deleting
  }

  lemma ItemBatchTouches(s: State, j: Id, batch: set<Id>)
    requires j in s.db.jobs
    ensures j in ItemBatch(s, j, batch).db.jobs
    ensures CanDeleteItems(s.db, j, batch) && batch != {} ==> !Untouched(ItemBatch(s, j, batch).db.jobs[j])
    ensures (!CanDeleteItems(s.db, j, batch) || batch == {}) ==> (Untouched(ItemBatch(s, j, batch).db.jobs[j]) <==> Untouched(s.db.jobs[j]))
  {
    if CanDeleteItems(s.db, j, batch) {
      var dead := ArtifactsOfItems(s.db.itemLinks, batch);
      assert batch == {} ==> dead == {};
      RemovedJob(s, j, dead);
      NonemptyHasSize(batch);
      CountedJob(WithoutItems(Removed(s, j, dead), batch), j, |batch|, |dead|);
    }
  }

  lemma FailedRecordIsLost(s: State, j: Id)
    requires RecordError(s.db, j).Some?
    ensures Record(s, j) == s
  {
  }

  // The guard that delete_item_batch lacks: exactly a batch of a collection that is not DELETING breaks the rule.
  lemma HalfDeletedStep(s: State, c: Id, step: Step, j: Id)
    requires HalfDeletedIsDeleting(s, c, j) && s.db.jobs[j].collection == c && OwnStep(step, j)
    ensures HalfDeletedIsDeleting(Apply(s, step), c, j) <==> !DeletesFromReopened(s, c, step, j)
  {
    OwnStepCollections(s, step, j);
    if step.SItemBatch? {
      ItemBatchTouches(s, j, step.batch);
    } else if step.SRecord? {
      RecordJob(s, j);
      if RecordError(s.db, j).Some? {
        FailedRecordIsLost(s, j);
      }
    } else {
      OtherStepSteady(s, step, j);
    }
  }

  // No step deletes from a collection that has been handed back.
  ghost predicate NoneDeletesFromReopened(first: State, c: Id, steps: seq<Step>, j: Id) {
    forall k :: 0 <= k < |steps| ==> !DeletesFromReopened(After(first, steps[..k]), c, steps[k], j)
  }

  lemma FrontOfFront(first: State, steps: seq<Step>, k: nat)
    requires k < |steps|
    ensures steps[..|steps| - 1][..k] == steps[..k]
  {
  }

  lemma {:induction false} HalfDeletedSteps(start: State, c: Id, first: State, steps: seq<Step>, j: Id)
    requires Consistent(first) && Since(start, c, first, j) && OwnSteps(steps, j)
    requires HalfDeletedIsDeleting(first, c, j) && NoneDeletesFromReopened(first, c, steps, j)
    ensures HalfDeletedIsDeleting(After(first, steps), c, j)
    decreases |steps|
  {
    if steps != [] {
      var front := steps[..|steps| - 1];
      forall k | 0 <= k < |front| ensures !DeletesFromReopened(After(first, front[..k]), c, front[k], j) {
        FrontOfFront(first, steps, k);
      }
      HalfDeletedSteps(start, c, first, front, j);
      SinceOwnSteps(start, c, first, front, j);
      HalfDeletedStep(After(first, front), c, steps[|steps| - 1], j);
    }
  }

  // A job that fails after any of its own steps: if every item and artifact of its collection is still there, all
  // collections are as they were before the job was created, whatever their status.
  lemma FailureHandsBack(start: State, c: Id, j: Id, createdAt: int, steps: seq<Step>)
    requires Creates(start, c, j) && OwnSteps(steps, j)
    ensures var s := After(Apply(start, SCreateJob(c, j, createdAt)), steps);
      c in s.db.collections && AllThere(start, c, s) ==> Apply(s, SFail(j)).db.collections == start.db.collections
  {
    var first := Apply(start, SCreateJob(c, j, createdAt));
    Created(start, c, j, createdAt);
    SinceOwnSteps(start, c, first, steps, j);
    var s := After(first, steps);
    UntouchedMeansAll(start, c, s, j);
    OwnStepCollections(s, SFail(j), j);
    OnlyDeletingGoesOn(start.db.collections, c, s.db.collections);
  }

  // If an item or artifact is gone and the collection is still there, it is DELETING.
  lemma FailureKeepsDeleting(start: State, c: Id, j: Id, createdAt: int, steps: seq<Step>)
    requires Creates(start, c, j) && OwnSteps(steps, j)
    requires NoneDeletesFromReopened(Apply(start, SCreateJob(c, j, createdAt)), c, steps, j)
    ensures var s := After(Apply(start, SCreateJob(c, j, createdAt)), steps);
      c in s.db.collections && !AllThere(start, c, s) ==> IsDeleting(Apply(s, SFail(j)), c)
  {
    var first := Apply(start, SCreateJob(c, j, createdAt));
    Created(start, c, j, createdAt);
    SinceOwnSteps(start, c, first, steps, j);
    var s := After(first, steps);
    UntouchedMeansAll(start, c, s, j);
    HalfDeletedSteps(start, c, first, steps, j);
    OwnStepCollections(s, SFail(j), j);
  }

  // ---------------------------------------------------------------- when the guard holds

  // While the job is FAILED nothing is done with it but retry it, or report the failure again.
  ghost predicate InOrder(first: State, steps: seq<Step>, j: Id) {
    forall k :: 0 <= k < |steps| ==> TakenInOrder(After(first, steps[..k]), steps[k], j)
  }

  predicate TakenInOrder(s: State, step: Step, j: Id) {
    j in s.db.jobs && s.db.jobs[j].status == Failed ==> step.SRetry? || step.SFail?
  }

  // The collection of a job that has not failed is DELETING, until it is gone.
  ghost predicate UnfailedIsDeleting(s: State, c: Id, j: Id) {
    && j in s.db.jobs && s.db.jobs[j].collection == c
    && (s.db.jobs[j].status != Failed && c in s.db.collections ==> s.db.collections[c].status == Deleting)
  }

  lemma RetryIsDeleting(s: State, c: Id, j: Id)
    requires UnfailedIsDeleting(s, c, j)
    ensures UnfailedIsDeleting(Retry(s, j), c, j)
  {
    RetrySteps(s, j);
  }

  lemma FailIsFailed(s: State, c: Id, j: Id)
    requires UnfailedIsDeleting(s, c, j)
    ensures UnfailedIsDeleting(Fail(s, j), c, j)
  {
  }

  lemma InOrderStep(s: State, c: Id, step: Step, j: Id)
    requires UnfailedIsDeleting(s, c, j) && OwnStep(step, j) && TakenInOrder(s, step, j)
    ensures UnfailedIsDeleting(Apply(s, step), c, j)
  {
    if step.SRetry? {
      RetryIsDeleting(s, c, j);
    } else if step.SFail? {
      FailIsFailed(s, c, j);
    } else {
      OwnStepJob(s, step, j);
      OwnStepCollections(s, step, j);
    }
  }

  lemma {:induction false} InOrderSteps(s: State, c: Id, steps: seq<Step>, j: Id)
    requires UnfailedIsDeleting(s, c, j) && OwnSteps(steps, j) && InOrder(s, steps, j)
    ensures UnfailedIsDeleting(After(s, steps), c, j)
    decreases |steps|
  {
    if steps != [] {
      var n := |steps| - 1;
      InOrderFront(s, steps, n, j);
      InOrderSteps(s, c, steps[..n], j);
      InOrderStep(After(s, steps[..n]), c, steps[n], j);
    }
  }

  lemma InOrderFront(s: State, steps: seq<Step>, n: nat, j: Id)
    requires n <= |steps| && OwnSteps(steps, j) && InOrder(s, steps, j)
    ensures OwnSteps(steps[..n], j) && InOrder(s, steps[..n], j)
  {
    forall k | 0 <= k < n ensures steps[..n][..k] == steps[..k] {
    }
  }

  // In that order no batch deletes from a collection that has been handed back.
  lemma OrderIsEnough(s: State, c: Id, steps: seq<Step>, j: Id)
    requires UnfailedIsDeleting(s, c, j) && OwnSteps(steps, j) && InOrder(s, steps, j)
    ensures NoneDeletesFromReopened(s, c, steps, j)
  {
    forall k | 0 <= k < |steps| ensures !DeletesFromReopened(After(s, steps[..k]), c, steps[k], j) {
      InOrderFront(s, steps, k, j);
      InOrderSteps(s, c, steps[..k], j);
      assert TakenInOrder(After(s, steps[..k]), steps[k], j);
    }
  }

  // A job whose steps are taken in order and which then fails: its collection is as before the job exactly if nothing
  // of it is gone, and DELETING if something is.
  lemma FailureInOrder(start: State, c: Id, j: Id, createdAt: int, steps: seq<Step>)
    requires Creates(start, c, j) && OwnSteps(steps, j) && InOrder(Apply(start, SCreateJob(c, j, createdAt)), steps, j)
    requires c in After(Apply(start, SCreateJob(c, j, createdAt)), steps).db.collections
    ensures var s := After(Apply(start, SCreateJob(c, j, createdAt)), steps);
      var collections := Apply(s, SFail(j)).db.collections;
      && c in collections && collections[c].status == (if AllThere(start, c, s) then start.db.collections[c].status else Deleting)
      && (AllThere(start, c, s) <==> collections == start.db.collections)
  {
    Created(start, c, j, createdAt);
    OrderIsEnough(Apply(start, SCreateJob(c, j, createdAt)), c, steps, j);
    FailureHandsBack(start, c, j, createdAt, steps);
    FailureKeepsDeleting(start, c, j, createdAt, steps);
  }

  lemma WholeBatch(s: State, c: Id)
    requires Consistent(s)
    ensures !ParentHeld(s.db.items, ItemsOf(s.db.items, c))
  {
    assert Holds(ItemRows, s);
    forall i | i in s.db.items && s.db.items[i].parent.Some? && s.db.items[i].collection != c
      ensures s.db.items[i].parent.value !in ItemsOf(s.db.items, c) {
      assert ParentInside(s.db.items, i);
    }
  }

  // A failure before anything is deleted.
  lemma HandedBackAtOnce(start: State, c: Id, j: Id, createdAt: int)
    requires Creates(start, c, j)
    ensures var s := Apply(Apply(start, SCreateJob(c, j, createdAt)), SFail(j));
      && Consistent(s) && j in s.db.jobs && s.db.jobs[j].collection == c
      && s.db.collections == start.db.collections && ItemsOf(s.db.items, c) == ItemsOf(start.db.items, c)
  {
    var first := Apply(start, SCreateJob(c, j, createdAt));
    Created(start, c, j, createdAt);
    assert first.db.items == start.db.items;
    OwnStepCollections(first, SFail(j), j);
    FailSteady(first, j);
    OnlyDeletingGoesOn(start.db.collections, c, first.db.collections);
    FailKeeps(first, j);
  }

  // A batch of all items, from whatever state.
  lemma WholeBatchEmpties(s: State, c: Id, j: Id)
    requires Consistent(s) && j in s.db.jobs && s.db.jobs[j].collection == c && ItemsOf(s.db.items, c) != {}
    ensures var s' := ItemBatch(s, j, ItemsOf(s.db.items, c));
      j in s'.db.jobs && ItemsOf(s'.db.items, c) == {} && s'.db.collections == s.db.collections && !Untouched(s'.db.jobs[j])
  {
    var batch := ItemsOf(s.db.items, c);
    WholeBatch(s, c);
    ItemBatchCollections(s, j, batch);
    ItemBatchTouches(s, j, batch);
    ItemBatchJobs(s, j, batch);
    FewerItems(s.db.items, batch, c);
  }

  lemma LateBatch(s: State, c: Id, j: Id)
    requires Consistent(s) && j in s.db.jobs && s.db.jobs[j].collection == c && ItemsOf(s.db.items, c) != {}
    ensures var s' := Apply(s, SItemBatch(j, ItemsOf(s.db.items, c)));
      ItemsOf(s'.db.items, c) == {} && s'.db.collections == Apply(s', SFail(j)).db.collections == s.db.collections
  {
    WholeBatchEmpties(s, c, j);
    OwnStepCollections(ItemBatch(s, j, ItemsOf(s.db.items, c)), SFail(j), j);
  }

  // Out of order it goes wrong for every collection with an item: the failure of a job that has not begun hands the
  // collection back, and a batch that still comes empties it without making it DELETING.
  lemma LateBatchEmptiesReopened(start: State, c: Id, j: Id, createdAt: int)
    requires Creates(start, c, j) && ItemsOf(start.db.items, c) != {}
    ensures var reopened := Apply(Apply(start, SCreateJob(c, j, createdAt)), SFail(j));
      var emptied := Apply(reopened, SItemBatch(j, ItemsOf(start.db.items, c)));
      && ItemsOf(emptied.db.items, c) == {} && c in emptied.db.collections
      && emptied.db.collections == Apply(emptied, SFail(j)).db.collections == start.db.collections
  {
    HandedBackAtOnce(start, c, j, createdAt);
    LateBatch(Apply(Apply(start, SCreateJob(c, j, createdAt)), SFail(j)), c, j);
  }
}
