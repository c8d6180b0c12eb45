/** What every step of a deletion job keeps, from wherever the job was interrupted. */
module DeletionCourse {
  import opened Common
  import opened ArtifactState
  import opened DeletionSpec
  import opened DeletionSafety
  import opened DeletionOutcome
  import opened DeletionCounts

  // Where a job is heading: what it will leave, and what it will have counted.
  datatype Course = Course(outlook: Outlook, items: int, artifacts: int)

  function CourseOf(s: State, j: Id): Course
    requires j in s.db.jobs
  {
    Course(OutlookOf(s, j), ItemTotal(s, j), ArtifactTotal(s, j))
  }

  // Job j is active and heads for `course`.
  ghost predicate On(s: State, j: Id, course: Course) {
    Consistent(s) && j in s.db.jobs && Active(s.db.jobs[j].status) && CourseOf(s, j) == course
  }

  lemma Alone(s: State, j: Id, course: Course)
    requires On(s, j, course)
    ensures !ActiveElsewhere(s.db.jobs, j, s.db.jobs[j].collection)
  {
    JobOf(s, j);
  }

  lemma JobKeepsTotals(s: State, j: Id, job: Job)
    requires j in s.db.jobs && job.collection == s.db.jobs[j].collection
    requires job.deletedItems == s.db.jobs[j].deletedItems && job.deletedArtifacts == s.db.jobs[j].deletedArtifacts
    ensures ItemTotal(SetJob(s, j, job), j) == ItemTotal(s, j) && ArtifactTotal(SetJob(s, j, job), j) == ArtifactTotal(s, j)
  {
  }

  lemma ValidateStays(s: State, j: Id, course: Course)
    requires On(s, j, course)
    ensures On(Validate(s, j), j, course)
    ensures Validate(s, j) == WithJobStatus(s, j, Validating)
  {
    Alone(s, j, course);
    AdvanceKeeps(s, j, Validating);
    ValidateKeepsOutlook(s, j);
    JobKeepsTotals(s, j, s.db.jobs[j].(status := Validating));
  }

  lemma UnparentedTotals(s: State, j: Id)
    requires j in s.db.jobs
    ensures var s' := s.(db := s.db.(items := Unparented(s.db.items, s.db.jobs[j].collection)));
      ItemTotal(s', j) == ItemTotal(s, j) && ArtifactTotal(s', j) == ArtifactTotal(s, j)
  {
    var c := s.db.jobs[j].collection;
    assert ItemsOf(Unparented(s.db.items, c), c) == ItemsOf(s.db.items, c);
  }

  // No item of the collection has a parent any more.
  predicate NoParents(items: map<Id, Item>, c: Id) {
    forall i :: i in items && items[i].collection == c ==> items[i].parent == None
  }

  lemma PrepareItems(s: State, j: Id)
    requires j in s.db.jobs && s.db.jobs[j].status != Completed && !ActiveElsewhere(s.db.jobs, j, s.db.jobs[j].collection)
    ensures var s1 := s.(db := s.db.(items := Unparented(s.db.items, s.db.jobs[j].collection)));
      Prepare(s, j) == WithJobStatus(s1, j, DeletingRows) && NoParents(s1.db.items, s.db.jobs[j].collection)
  {
  }

  lemma PrepareStays(s: State, j: Id, course: Course)
    requires On(s, j, course)
    ensures var s' := Prepare(s, j);
      On(s', j, course) && s'.db.jobs[j].collection == s.db.jobs[j].collection && NoParents(s'.db.items, s.db.jobs[j].collection)
  {
    Alone(s, j, course);
    PrepareItems(s, j);
    PrepareKeeps(s, j);
    PrepareKeepsOutlook(s, j);
    UnparentedTotals(s, j);
    var s1 := s.(db := s.db.(items := Unparented(s.db.items, s.db.jobs[j].collection)));
    JobKeepsTotals(s1, j, s.db.jobs[j].(status := DeletingRows));
  }

  lemma ParentsInside(s: State, c: Id, batch: set<Id>)
    requires Consistent(s) && batch <= ItemsOf(s.db.items, c)
    requires NoParents(s.db.items, c)
    ensures !ParentHeld(s.db.items, batch)
  {
    assert Holds(ItemRows, s);
    forall i | i in s.db.items && s.db.items[i].parent.Some? ensures s.db.items[i].parent.value !in batch {
      assert ParentInside(s.db.items, i);
    }
  }

  lemma ItemBatchJobs(s: State, j: Id, batch: set<Id>)
    requires CanDeleteItems(s.db, j, batch)
    ensures SameJobs(s.db.jobs, ItemBatch(s, j, batch).db.jobs) && ItemBatch(s, j, batch).db.items == Keep(s.db.items, batch)
  {
  }

  lemma FewerItems(items: map<Id, Item>, batch: set<Id>, c: Id)
    ensures ItemsOf(Keep(items, batch), c) == ItemsOf(items, c) - batch
    ensures NoParents(items, c) ==> NoParents(Keep(items, batch), c)
  {
  }

  lemma ItemBatchStays(s: State, j: Id, batch: set<Id>, course: Course)
    requires On(s, j, course) && CanDeleteItems(s.db, j, batch)
    ensures var s', c := ItemBatch(s, j, batch), s.db.jobs[j].collection;
      On(s', j, course) && s'.db.jobs[j].collection == c && s'.db.items == Keep(s.db.items, batch)
  {
    ItemBatchJobs(s, j, batch);
    ItemBatchKeeps(s, j, batch);
    ItemBatchKeepsOutlook(s, j, batch);
    ItemBatchConserves(s, j, batch);
  }

  lemma WithoutRecordJob(s: State, j: Id, c: Id)
    requires j in s.db.jobs
    ensures j in WithoutRecord(s, j, c).db.jobs && WithoutRecord(s, j, c).db.jobs[j].collection == s.db.jobs[j].collection
    ensures c !in WithoutRecord(s, j, c).db.collections
  {
  }

  lemma StatusJob(s: State, j: Id, status: JobStatus)
    requires j in s.db.jobs
    ensures var s' := WithJobStatus(s, j, status);
      && j in s'.db.jobs && s'.db.jobs[j].status == status && s'.db.jobs[j].collection == s.db.jobs[j].collection
      && s'.db.collections == s.db.collections
  {
  }

  lemma RecordSteps(s: State, j: Id)
    requires j in s.db.jobs && RecordError(s.db, j) == None
    ensures var c := s.db.jobs[j].collection;
      Record(s, j) == WithJobStatus(if c in s.db.collections then WithoutRecord(s, j, c) else s, j, DeletingBlobs)
  {
  }

  lemma RecordStatus(s: State, j: Id)
    requires j in s.db.jobs && RecordError(s.db, j) == None
    ensures var s' := Record(s, j);
      && j in s'.db.jobs && s'.db.jobs[j].status == DeletingBlobs && s'.db.jobs[j].collection == s.db.jobs[j].collection
      && s.db.jobs[j].collection !in s'.db.collections
  {
    var c := s.db.jobs[j].collection;
    RecordSteps(s, j);
    WithoutRecordJob(s, j, c);
    StatusJob(if c in s.db.collections then WithoutRecord(s, j, c) else s, j, DeletingBlobs);
  }

  lemma RecordTotals(s: State, j: Id)
    requires j in s.db.jobs && RecordError(s.db, j) == None
    ensures j in Record(s, j).db.jobs && ItemTotal(Record(s, j), j) == ItemTotal(s, j) && ArtifactTotal(Record(s, j), j) == ArtifactTotal(s, j)
  {
    var c := s.db.jobs[j].collection;
    if c in s.db.collections {
      RecordConserves(s, j);
      var s1 := WithoutRecord(s, j, c);
      JobKeepsTotals(s1, j, s1.db.jobs[j].(status := DeletingBlobs));
    } else {
      JobKeepsTotals(s, j, s.db.jobs[j].(status := DeletingBlobs));
    }
  }

  lemma RecordStays(s: State, j: Id, course: Course)
    requires On(s, j, course) && ItemsOf(s.db.items, s.db.jobs[j].collection) == {}
    ensures RecordError(s.db, j) == None
    ensures On(Record(s, j), j, course) && Record(s, j).db.jobs[j].collection !in Record(s, j).db.collections
  {
    Alone(s, j, course);
    RecordKeeps(s, j);
    RecordKeepsOutlook(s, j);
    RecordStatus(s, j);
    RecordTotals(s, j);
  }

  lemma PendingAfter(rows: map<Id, Doomed>, j: Id, batch: set<Id>)
    requires batch <= PendingOf(rows, j)
    ensures PendingOf(Marked(rows, batch), j) == PendingOf(rows, j) - batch
  {
  }

  lemma BlobBatchTotals(s: State, j: Id, batch: set<Id>)
    requires j in s.db.jobs
    ensures var s' := BlobBatch(s, j, batch);
      && j in s'.db.jobs && ItemTotal(s', j) == ItemTotal(s, j) && ArtifactTotal(s', j) == ArtifactTotal(s, j)
      && s'.db.jobs[j].status == s.db.jobs[j].status && s'.db.jobs[j].collection == s.db.jobs[j].collection
      && s'.db.collections == s.db.collections
  {
    if batch <= PendingOf(s.db.doomed, j) {
      JobKeepsTotals(s.(db := s.db.(doomed := Marked(s.db.doomed, batch)), objects := ObjectsWithout(s.objects, s.db.doomed, batch)), j,
                     s.db.jobs[j].(deletedBlobs := s.db.jobs[j].deletedBlobs + |batch|));
    }
  }

  lemma BlobBatchStays(s: State, j: Id, batch: set<Id>, course: Course)
    requires On(s, j, course) && batch <= PendingOf(s.db.doomed, j)
    ensures var s' := BlobBatch(s, j, batch);
      On(s', j, course) && s'.db.jobs[j].collection == s.db.jobs[j].collection && s'.db.collections == s.db.collections
      && PendingOf(s'.db.doomed, j) == PendingOf(s.db.doomed, j) - batch
  {
    BlobBatchKeeps(s, j, batch);
    BlobBatchKeepsOutlook(s, j, batch);
    BlobBatchTotals(s, j, batch);
    PendingAfter(s.db.doomed, j, batch);
  }

  lemma CompleteTotals(s: State, j: Id)
    requires j in s.db.jobs && PendingOf(s.db.doomed, j) == {}
    ensures var s' := Complete(s, j);
      && j in s'.db.jobs && ItemTotal(s', j) == ItemTotal(s, j) && ArtifactTotal(s', j) == ArtifactTotal(s, j)
      && s'.db.jobs[j] == s.db.jobs[j].(status := Completed) && s'.db.collections == s.db.collections
      && RowsOf(s'.db.doomed, j) == {}
  {
    JobKeepsTotals(s.(db := s.db.(doomed := Keep(s.db.doomed, RowsOf(s.db.doomed, j)))), j, s.db.jobs[j].(status := Completed));
  }

  lemma TotalsReached(s: State, j: Id)
    requires Consistent(s) && j in s.db.jobs && s.db.jobs[j].collection !in s.db.collections
    ensures s.db.jobs[j].deletedItems == ItemTotal(s, j) && s.db.jobs[j].deletedArtifacts == ArtifactTotal(s, j)
  {
    NothingLeft(s, s.db.jobs[j].collection);
  }

  // Job j is done: exactly what was to be left is left, and everything was counted.
  ghost predicate Arrived(s: State, j: Id, course: Course) {
    && Consistent(s) && j in s.db.jobs && s.db.jobs[j].status == Completed
    && Settled(s, course.outlook)
    && s.db.jobs[j].deletedItems == course.items && s.db.jobs[j].deletedArtifacts == course.artifacts
    && s.db.jobs[j].deletedBlobs == s.db.jobs[j].blobCount
  }

  lemma CompleteArrives(s: State, j: Id, course: Course)
    requires On(s, j, course) && s.db.jobs[j].collection !in s.db.collections && PendingOf(s.db.doomed, j) == {}
    ensures Arrived(Complete(s, j), j, course)
  {
    var s' := Complete(s, j);
    CompleteKeeps(s, j);
    CompleteKeepsOutlook(s, j);
    CompleteTotals(s, j);
    TotalsReached(s', j);
    OutlookReached(s', j);
    CountOf(s, j);
  }

  // The object is needed by nothing but collection c: job j has scheduled it, or only artifacts of c refer to its blob.
  predicate OnlyFor(s: State, c: Id, j: Id, p: Location) {
    || (p.key in s.db.doomed && s.db.doomed[p.key] in {Doomed(j, p, false), Doomed(j, p, true)})
    || (p.key in s.db.blobs && s.db.blobs[p.key].place == p
        && forall a :: a in s.db.artifacts && s.db.artifacts[a] == p.key ==> a in ArtifactsOf(s.db, c))
  }

  lemma LostIsOnlyFor(s: State, c: Id, j: Id, p: Location)
    ensures Lost(s.db.blobs, s.db.doomed, Keep(s.db.artifacts, ArtifactsOf(s.db, c)), j, p) == OnlyFor(s, c, j, p)
  {
    var kept := Keep(s.db.artifacts, ArtifactsOf(s.db, c));
    if p.key in s.db.blobs && p.key in kept.Values {
      var a :| a in kept && kept[a] == p.key;
      assert s.db.artifacts[a] == p.key && a !in ArtifactsOf(s.db, c);
    }
    forall a | a in s.db.artifacts && s.db.artifacts[a] == p.key && a !in ArtifactsOf(s.db, c) ensures p.key in kept.Values {
      assert kept[a] == p.key;
    }
  }

  // Exactly the rows of `gone` are gone, and the others are as they were.
  ghost predicate Rest<V>(before: map<Id, V>, after: map<Id, V>, gone: set<Id>) {
    after.Keys == before.Keys - gone && forall k :: k in after ==> after[k] == before[k]
  }

  // What is left of the rows that hang on collections.
  ghost predicate RowsLeft(before: Database, after: Database, c: Id) {
    && (forall l :: l in after.selections <==> l in before.selections && before.selections[l] != c)
    && (forall l :: l in after.selections ==> after.selections[l] == before.selections[l])
    && (forall r :: r in after.runs <==> r in before.runs && before.runs[r].collection != c)
    && (forall r :: r in after.runs ==> after.runs[r] == before.runs[r])
    && (forall p :: p in after.selected <==>
          p in before.selected && !(p.0 in before.selections && before.selections[p.0] == c) && p.1 !in ItemsOf(before.items, c))
  }

  // Nothing of collection c is left, the objects that only it needed are gone, and everything else is as it was.
  ghost predicate OnlyCollectionGone(s: State, c: Id, j: Id, s': State) {
    var artifacts := ArtifactsOf(s.db, c);
    && Rest(s.db.collections, s'.db.collections, {c})
    && Rest(s.db.items, s'.db.items, ItemsOf(s.db.items, c))
    && Rest(s.db.artifacts, s'.db.artifacts, artifacts)
    && Rest(s.db.itemLinks, s'.db.itemLinks, artifacts)
    && Rest(s.db.collectionLinks, s'.db.collectionLinks, artifacts)
    && (forall p :: p in s'.db.lineage <==> p in s.db.lineage && p.0 !in artifacts && p.1 !in artifacts)
    && RowsLeft(s.db, s'.db, c)
    && Rest(s.db.doomed, s'.db.doomed, RowsOf(s.db.doomed, j))
    && s'.db.blobs.Keys == s'.db.artifacts.Values && (forall b :: b in s'.db.blobs ==> b in s.db.blobs && s'.db.blobs[b] == s.db.blobs[b])
    && (forall p :: p in s'.objects <==> p in s.objects && !OnlyFor(s, c, j, p))
    && (forall p :: p in s'.objects ==> s'.objects[p] == s.objects[p])
  }

  // What it means to arrive, from whatever state the job set out.
  lemma DeletionIsExact(s: State, j: Id, s': State)
    requires j in s.db.jobs && Arrived(s', j, CourseOf(s, j))
    ensures var c := s.db.jobs[j].collection;
      OnlyCollectionGone(s, c, j, s') && ItemsOf(s'.db.items, c) == {} && ArtifactsOf(s'.db, c) == {}
  {
    var c := s.db.jobs[j].collection;
    NothingLeft(s', c);
    assert Holds(Blobs, s');
    forall p ensures Lost(s.db.blobs, s.db.doomed, Keep(s.db.artifacts, ArtifactsOf(s.db, c)), j, p) == OnlyFor(s, c, j, p) {
      LostIsOnlyFor(s, c, j, p);
    }
  }

  // ---------------------------------------------------------------- failing, retrying, resuming

  lemma ReopenedKeepsOutlook(s: State, c: Id, j: Id, status: CollectionStatus)
    ensures OutlookFor(WithStatus(s, c, status), c, j) == OutlookFor(s, c, j)
  {
    assert Keep(SetStatus(s.db.collections, c, status), {c}) == Keep(s.db.collections, {c});
  }

  lemma ReopenedKeepsTotals(s: State, c: Id, j: Id, status: CollectionStatus)
    requires j in s.db.jobs
    ensures ItemTotal(WithStatus(s, c, status), j) == ItemTotal(s, j) && ArtifactTotal(WithStatus(s, c, status), j) == ArtifactTotal(s, j)
  {
  }

  // A new status of the job and of its collection does not change where the job is heading.
  lemma StatusKeepsCourse(s: State, j: Id, status: CollectionStatus, job: Job)
    requires j in s.db.jobs && job.collection == s.db.jobs[j].collection
    requires job.deletedItems == s.db.jobs[j].deletedItems && job.deletedArtifacts == s.db.jobs[j].deletedArtifacts
    ensures CourseOf(SetJob(WithStatus(s, job.collection, status), j, job), j) == CourseOf(s, j)
    ensures CourseOf(SetJob(s, j, job), j) == CourseOf(s, j)
  {
    var c := job.collection;
    ReopenedKeepsOutlook(s, c, j, status);
    ReopenedKeepsTotals(s, c, j, status);
    JobKeepsOutlook(s, c, j, j, job);
    JobKeepsTotals(s, j, job);
    JobKeepsOutlook(WithStatus(s, c, status), c, j, j, job);
    JobKeepsTotals(WithStatus(s, c, status), j, job);
  }

  lemma FailKeepsCourse(s: State, j: Id)
    requires j in s.db.jobs
    ensures j in Fail(s, j).db.jobs && CourseOf(Fail(s, j), j) == CourseOf(s, j)
  {
    var job := s.db.jobs[j];
    StatusKeepsCourse(s, j, job.previousStatus, job.(status := Failed));
  }

  lemma RetryKeepsCourse(s: State, j: Id)
    requires j in s.db.jobs
    ensures j in Retry(s, j).db.jobs && CourseOf(Retry(s, j), j) == CourseOf(s, j)
  {
    var job := s.db.jobs[j];
    StatusKeepsCourse(s, j, Deleting, job.(status := Queued, attempts := job.attempts + 1));
  }

  lemma ValidateKeepsCourse(s: State, j: Id)
    requires j in s.db.jobs
    ensures j in Validate(s, j).db.jobs && CourseOf(Validate(s, j), j) == CourseOf(s, j)
  {
    StatusKeepsCourse(s, j, Deleting, s.db.jobs[j].(status := Validating));
  }

  lemma PrepareKeepsCourse(s: State, j: Id)
    requires j in s.db.jobs
    ensures j in Prepare(s, j).db.jobs && CourseOf(Prepare(s, j), j) == CourseOf(s, j)
  {
    PrepareKeepsOutlook(s, j);
    UnparentedTotals(s, j);
    var s1 := s.(db := s.db.(items := Unparented(s.db.items, s.db.jobs[j].collection)));
    JobKeepsTotals(s1, j, s.db.jobs[j].(status := DeletingRows));
    if s.db.jobs[j].status != Completed && !ActiveElsewhere(s.db.jobs, j, s.db.jobs[j].collection) {
      PrepareItems(s, j);
    }
  }

  lemma RecordKeepsCourse(s: State, j: Id)
    requires Consistent(s) && j in s.db.jobs
    ensures j in Record(s, j).db.jobs && CourseOf(Record(s, j), j) == CourseOf(s, j)
  {
    RecordKeepsOutlook(s, j);
    if RecordError(s.db, j) == None {
      RecordTotals(s, j);
    }
  }

  lemma BlobStepsKeepCourse(s: State, j: Id, batch: set<Id>)
    requires Consistent(s) && j in s.db.jobs
    ensures j in BlobBatch(s, j, batch).db.jobs && CourseOf(BlobBatch(s, j, batch), j) == CourseOf(s, j)
    ensures j in InterruptedBlobBatch(s, j, batch).db.jobs && CourseOf(InterruptedBlobBatch(s, j, batch), j) == CourseOf(s, j)
  {
    BlobBatchKeepsOutlook(s, j, batch);
    BlobBatchTotals(s, j, batch);
    if batch <= PendingOf(s.db.doomed, j) {
      ObjectsGoneKeepOutlook(s, j, batch);
    }
  }

  lemma CompleteKeepsCourse(s: State, j: Id)
    requires Consistent(s) && j in s.db.jobs
    ensures j in Complete(s, j).db.jobs && CourseOf(Complete(s, j), j) == CourseOf(s, j)
  {
    CompleteKeepsOutlook(s, j);
    if PendingOf(s.db.doomed, j) == {} {
      CompleteTotals(s, j);
    }
  }

  // A step of job j, whether it commits, fails or is lost.
  predicate OwnStep(step: Step, j: Id) {
    match step
    case SRetry(k) => k == j
    case SValidate(k) => k == j
    case SPrepare(k) => k == j
    case SItemBatch(k, _) => k == j
    case SRecord(k) => k == j
    case SBlobBatch(k, _) => k == j
    case SInterrupted(k, _) => k == j
    case SComplete(k) => k == j
    case SFail(k) => k == j
    case _ => false
  }

  lemma OwnRowStepKeepsCourse(s: State, step: Step, j: Id)
    requires Consistent(s) && j in s.db.jobs && OwnStep(step, j) && (step.SItemBatch? || step.SRecord? || step.SBlobBatch? || step.SInterrupted?)
    ensures j in Apply(s, step).db.jobs && CourseOf(Apply(s, step), j) == CourseOf(s, j)
  {
    if step.SItemBatch? {
      ItemBatchKeepsOutlook(s, j, step.batch);
      ItemBatchConserves(s, j, step.batch);
    } else if step.SRecord? {
      RecordKeepsCourse(s, j);
    } else {
      BlobStepsKeepCourse(s, j, step.batch);
    }
  }

  lemma OwnStepKeepsCourse(s: State, step: Step, j: Id)
    requires Consistent(s) && j in s.db.jobs && OwnStep(step, j)
    ensures j in Apply(s, step).db.jobs && CourseOf(Apply(s, step), j) == CourseOf(s, j)
  {
    match step
    case SRetry(_) => RetryKeepsCourse(s, j);
    case SValidate(_) => ValidateKeepsCourse(s, j);
    case SPrepare(_) => PrepareKeepsCourse(s, j);
    case SComplete(_) => CompleteKeepsCourse(s, j);
    case SFail(_) => FailKeepsCourse(s, j);
    case _ => OwnRowStepKeepsCourse(s, step, j);
  }

  predicate OwnSteps(steps: seq<Step>, j: Id) {
    forall k :: 0 <= k < |steps| ==> OwnStep(steps[k], j)
  }

  // However often the job is interrupted, fails and is retried, it heads for the same end.
  lemma {:induction false} OwnStepsKeepCourse(s: State, steps: seq<Step>, j: Id)
    requires Consistent(s) && j in s.db.jobs && OwnSteps(steps, j)
    ensures j in After(s, steps).db.jobs && CourseOf(After(s, steps), j) == CourseOf(s, j)
    decreases |steps|
  {
    if steps != [] {
      var front := steps[..|steps| - 1];
      OwnStepsKeepCourse(s, front, j);
      RunKeeps(s, front);
      OwnStepKeepsCourse(After(s, front), steps[|steps| - 1], j);
    }
  }

  // A workflow that is run after any such steps arrives where the job was heading at first.
  lemma ArrivesAsHeaded(first: State, steps: seq<Step>, j: Id, s': State)
    requires Consistent(first) && j in first.db.jobs && OwnSteps(steps, j)
    requires j in After(first, steps).db.jobs && Arrived(s', j, CourseOf(After(first, steps), j))
    ensures Arrived(s', j, CourseOf(first, j))
  {
    OwnStepsKeepCourse(first, steps, j);
  }

  // ---------------------------------------------------------------- after the record step

  lemma DeletionStepKeepsGone(s: State, step: Step, c: Id)
    requires c in s.spent && c !in s.db.collections && OfDeletion(step)
    ensures c !in Apply(s, step).db.collections
  {
  }

  lemma OtherStepKeepsGone(s: State, step: Step, c: Id)
    requires c in s.spent && c !in s.db.collections && !OfDeletion(step)
    ensures c !in Apply(s, step).db.collections
  {
  }

  // An id is handed out once, so that no step brings the collection back.
  lemma StepKeepsGone(s: State, step: Step, c: Id)
    requires c in s.spent && c !in s.db.collections
    ensures c in Apply(s, step).spent && c !in Apply(s, step).db.collections
  {
    if OfDeletion(step) {
      DeletionStepKeepsGone(s, step, c);
    } else {
      OtherStepKeepsGone(s, step, c);
    }
  }

  lemma {:induction false} GoneForGood(s: State, steps: seq<Step>, c: Id)
    requires c in s.spent && c !in s.db.collections
    ensures c in After(s, steps).spent && c !in After(s, steps).db.collections
    decreases |steps|
  {
    if steps != [] {
      GoneForGood(s, steps[..|steps| - 1], c);
      StepKeepsGone(After(s, steps[..|steps| - 1]), steps[|steps| - 1], c);
    }
  }

  // Once the record step of a job has succeeded, nothing of its collection exists in any continuation, whatever
  // other callers do.
  lemma RecordIsFinal(s: State, j: Id, steps: seq<Step>)
    requires Consistent(s) && j in s.db.jobs && RecordError(s.db, j) == None
    ensures var c, s' := s.db.jobs[j].collection, After(Record(s, j), steps);
      && c !in s'.db.collections && ItemsOf(s'.db.items, c) == {} && ArtifactsOf(s'.db, c) == {}
      && (forall l :: l in s'.db.selections ==> s'.db.selections[l] != c)
      && (forall r :: r in s'.db.runs ==> s'.db.runs[r].collection != c)
  {
    var c, s' := s.db.jobs[j].collection, After(Record(s, j), steps);
    assert Holds(JobIds, s);
    RecordStatus(s, j);
    RecordKeeps(s, j);
    GoneForGood(Record(s, j), steps, c);
    RunKeeps(Record(s, j), steps);
    assert Holds(SelectionRows, s');
    NothingLeft(s', c);
  }
}
