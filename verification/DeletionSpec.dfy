/**
  The transactions of artifact_service/deletion.py and of the upload paths that share its blobs
  (service.py, derived.py, api.py), each as a function from one committed state to the next.  A
  transaction that raises leaves the committed state as it was.
 */
module DeletionSpec {
  import opened Common
  import opened ArtifactState

  function Keep<V>(m: map<Id, V>, gone: set<Id>): (r: map<Id, V>)
    ensures r.Keys == m.Keys - gone
  {
    map k | k in m && k !in gone :: m[k]
  }

  // ---------------------------------------------------------------- artifacts and their blobs

  function KeepPairs(lineage: set<(Id, Id)>, gone: set<Id>): set<(Id, Id)> {
    set p | p in lineage && p.0 !in gone && p.1 !in gone
  }

  // The blobs of the dead artifacts that no remaining artifact refers to.
  function Orphans(artifacts: map<Id, Id>, blobs: map<Id, Blob>, dead: set<Id>): set<Id> {
    (set a | a in artifacts && a in dead :: artifacts[a]) * blobs.Keys - Keep(artifacts, dead).Values
  }

  function Scheduled(blobs: map<Id, Blob>, j: Id, orphans: set<Id>): (r: map<Id, Doomed>)
    ensures r.Keys == blobs.Keys * orphans
  {
    map b | b in blobs && b in orphans :: Doomed(j, blobs[b].place, false)
  }

  // Every job keeps its collection and status.
  ghost predicate SameJobs(jobs: map<Id, Job>, after: map<Id, Job>) {
    && after.Keys == jobs.Keys
    && forall k :: k in jobs ==> after[k].collection == jobs[k].collection && after[k].status == jobs[k].status
  }

  function WithBlobCount(jobs: map<Id, Job>, j: Id, scheduled: nat): (after: map<Id, Job>)
    requires j in jobs
    ensures SameJobs(jobs, after)
  {
    jobs[j := jobs[j].(blobCount := jobs[j].blobCount + scheduled)]
  }

  // _delete_artifacts_and_schedule_blobs
  function WithoutArtifacts(db: Database, j: Id, dead: set<Id>): (after: Database)
    requires j in db.jobs
    ensures SameJobs(db.jobs, after.jobs)
  {
    var orphans := Orphans(db.artifacts, db.blobs, dead);
    db.(artifacts := Keep(db.artifacts, dead),
        itemLinks := Keep(db.itemLinks, dead),
        collectionLinks := Keep(db.collectionLinks, dead),
        lineage := KeepPairs(db.lineage, dead),
        blobs := Keep(db.blobs, orphans),
        doomed := db.doomed + Scheduled(db.blobs, j, orphans),
        jobs := WithBlobCount(db.jobs, j, |orphans|))
  }

  function Removed(s: State, j: Id, dead: set<Id>): (after: State)
    requires j in s.db.jobs
    ensures SameJobs(s.db.jobs, after.db.jobs)
  {
    s.(db := WithoutArtifacts(s.db, j, dead))
  }

  // Every job keeps its count of scheduled blobs.
  ghost predicate SameBlobCounts(jobs: map<Id, Job>, after: map<Id, Job>) {
    forall k :: k in jobs ==> k in after && after[k].blobCount == jobs[k].blobCount
  }

  // Neither a blob row, its references, a scheduled deletion nor a stored object changes.
  ghost predicate SameStorage(s: State, r: State) {
    && r.db.blobs == s.db.blobs && r.db.artifacts == s.db.artifacts && r.db.doomed == s.db.doomed
    && r.objects == s.objects && s.spent <= r.spent
  }

  // ---------------------------------------------------------------- deletion steps

  datatype Error =
    | CollectionNotFound | AlreadyDeleting | ProcessingActive | JobNotFound | NotFailed | ItemsRemain
    | BlobsRemain | ParentReferenced | ActiveJobExists | NotOpen | InvalidParent | InvalidSource
    | ContentMismatch | Blocked

  predicate Processing(runs: map<Id, Run>, c: Id) {
    exists r :: r in runs && runs[r].collection == c && runs[r].active
  }

  predicate HasActiveJob(jobs: map<Id, Job>, c: Id) {
    exists j :: j in jobs && Active(jobs[j].status) && jobs[j].collection == c
  }

  function NewJob(db: Database, c: Id, createdAt: int): Job
    requires c in db.collections
  {
    Job(c, db.collections[c].status, Queued, 1, createdAt,
        |ItemsOf(db.items, c)|, |ArtifactsOfItems(db.itemLinks, ItemsOf(db.items, c))| + |ContainersOf(db.collectionLinks, c)|, 0, 0, 0, 0)
  }

  // create_deletion_job, when it does not return an existing job
  predicate CanCreateJob(db: Database, c: Id) {
    c in db.collections && !HasActiveJob(db.jobs, c) && db.collections[c].status != Deleting && !Processing(db.runs, c)
  }

  function CreateJob(s: State, c: Id, j: Id, createdAt: int): (after: State)
    ensures SameStorage(s, after) && SameBlobCounts(s.db.jobs, after.db.jobs)
  {
    if CanCreateJob(s.db, c) && j !in s.spent && j !in s.db.jobs then
      s.(db := s.db.(jobs := s.db.jobs[j := NewJob(s.db, c, createdAt)],
                     collections := s.db.collections[c := s.db.collections[c].(status := Deleting)]),
         spent := s.spent + {j})
    else s
  }

  function SetJob(s: State, j: Id, job: Job): (after: State)
    ensures SameStorage(s, after)
  {
    s.(db := s.db.(jobs := s.db.jobs[j := job]))
  }

  function SetStatus(collections: map<Id, Collection>, c: Id, status: CollectionStatus): map<Id, Collection> {
    if c in collections then collections[c := collections[c].(status := status)] else collections
  }

  function WithStatus(s: State, c: Id, status: CollectionStatus): (after: State)
    ensures SameStorage(s, after) && SameBlobCounts(s.db.jobs, after.db.jobs)
  {
    s.(db := s.db.(collections := SetStatus(s.db.collections, c, status)))
  }

  // retry_deletion_job
  function Retry(s: State, j: Id): (after: State)
    ensures SameStorage(s, after) && SameBlobCounts(s.db.jobs, after.db.jobs)
  {
    if j in s.db.jobs && s.db.jobs[j].status == Failed && !ActiveElsewhere(s.db.jobs, j, s.db.jobs[j].collection) then
      var job := s.db.jobs[j];
      SetJob(WithStatus(s, job.collection, Deleting), j, job.(status := Queued, attempts := job.attempts + 1))
    else s
  }

  function WithJobStatus(s: State, j: Id, status: JobStatus): (after: State)
    requires j in s.db.jobs
    ensures SameBlobCounts(s.db.jobs, after.db.jobs)
    ensures SameStorage(s, after)
  {
    SetJob(s, j, s.db.jobs[j].(status := status))
  }

  // The status changes of the running workflow: validate and prepare_deletion.
  function Advance(s: State, j: Id, status: JobStatus): (after: State)
    ensures SameStorage(s, after) && SameBlobCounts(s.db.jobs, after.db.jobs)
  {
    if j in s.db.jobs && s.db.jobs[j].status != Completed && !ActiveElsewhere(s.db.jobs, j, s.db.jobs[j].collection) then
      WithJobStatus(s, j, status)
    else s
  }

  function Validate(s: State, j: Id): (after: State)
    ensures SameStorage(s, after) && SameBlobCounts(s.db.jobs, after.db.jobs)
  {
    Advance(s, j, Validating)
  }

  function Unparented(items: map<Id, Item>, c: Id): map<Id, Item> {
    map i | i in items :: if items[i].collection == c then items[i].(parent := None) else items[i]
  }

  // prepare_deletion
  function Prepare(s: State, j: Id): (after: State)
    ensures SameStorage(s, after) && SameBlobCounts(s.db.jobs, after.db.jobs)
  {
    if j in s.db.jobs && s.db.jobs[j].status != Completed && !ActiveElsewhere(s.db.jobs, j, s.db.jobs[j].collection) then
      Advance(s.(db := s.db.(items := Unparented(s.db.items, s.db.jobs[j].collection))), j, DeletingRows)
    else s
  }

  // An item outside the batch still names one of its items as parent (a RESTRICT foreign key).
  predicate ParentHeld(items: map<Id, Item>, batch: set<Id>) {
    exists i :: i in items && i !in batch && items[i].parent.Some? && items[i].parent.value in batch
  }

  function WithoutItems(s: State, batch: set<Id>): (after: State)
    ensures SameStorage(s, after)
  {
    s.(db := s.db.(items := Keep(s.db.items, batch), selected := (set p | p in s.db.selected && p.1 !in batch)))
  }

  function Counted(s: State, j: Id, items: nat, artifacts: nat): (after: State)
    requires j in s.db.jobs
    ensures SameBlobCounts(s.db.jobs, after.db.jobs)
    ensures SameJobs(s.db.jobs, after.db.jobs)
    ensures SameStorage(s, after)
  {
    var job := s.db.jobs[j];
    SetJob(s, j, job.(deletedItems := job.deletedItems + items, deletedArtifacts := job.deletedArtifacts + artifacts))
  }

  predicate CanDeleteItems(db: Database, j: Id, batch: set<Id>) {
    j in db.jobs && batch <= ItemsOf(db.items, db.jobs[j].collection) && !ParentHeld(db.items, batch)
  }

  // delete_item_batch, for the batch that its query selects
  function ItemBatch(s: State, j: Id, batch: set<Id>): (after: State)
    ensures s.spent <= after.spent
  {
    if CanDeleteItems(s.db, j, batch) then
      var dead := ArtifactsOfItems(s.db.itemLinks, batch);
      Counted(WithoutItems(Removed(s, j, dead), batch), j, |batch|, |dead|)
    else s
  }

  // delete_collection_record
  function RecordError(db: Database, j: Id): Option<Error> {
    if j !in db.jobs then Some(JobNotFound)
    else if db.jobs[j].collection in db.collections && ItemsOf(db.items, db.jobs[j].collection) != {} then Some(ItemsRemain)
    else if ActiveElsewhere(db.jobs, j, db.jobs[j].collection) then Some(ActiveJobExists)
    else None
  }

  function WithoutCollection(s: State, c: Id): (after: State)
    ensures SameStorage(s, after)
  {
    s.(db := s.db.(
      collections := Keep(s.db.collections, {c}),
      selections := (map l | l in s.db.selections && s.db.selections[l] != c :: s.db.selections[l]),
      selected := (set p | p in s.db.selected && !(p.0 in s.db.selections && s.db.selections[p.0] == c)),
      runs := (map r | r in s.db.runs && s.db.runs[r].collection != c :: s.db.runs[r])))
  }

  // The collection row, what hangs on it, and its source containers.
  function WithoutRecord(s: State, j: Id, c: Id): (after: State)
    requires j in s.db.jobs
    ensures SameStorage(Removed(s, j, ContainersOf(s.db.collectionLinks, c)), after)
    ensures SameBlobCounts(Removed(s, j, ContainersOf(s.db.collectionLinks, c)).db.jobs, after.db.jobs)
    ensures SameJobs(s.db.jobs, after.db.jobs)
  {
    var dead := ContainersOf(s.db.collectionLinks, c);
    Counted(WithoutCollection(Removed(s, j, dead), c), j, 0, |dead|)
  }

  function Record(s: State, j: Id): (after: State)
    ensures s.spent <= after.spent
  {
    if RecordError(s.db, j).Some? then s
    else
      var c := s.db.jobs[j].collection;
      if c !in s.db.collections then WithJobStatus(s, j, DeletingBlobs)
      else
        WithJobStatus(WithoutRecord(s, j, c), j, DeletingBlobs)
  }

  // The storage deletes of a blob batch, which no rollback undoes.
  function ObjectsWithout(objects: map<Location, string>, rows: map<Id, Doomed>, batch: set<Id>): map<Location, string> {
    var places := set b | b in batch && b in rows :: rows[b].place;
    map p | p in objects && p !in places :: objects[p]
  }

  // delete_blob_batch, interrupted after the objects of `batch` were deleted and before the commit
  function InterruptedBlobBatch(s: State, j: Id, batch: set<Id>): (after: State)
    ensures s.spent <= after.spent
  {
    if j in s.db.jobs && batch <= PendingOf(s.db.doomed, j) then s.(objects := ObjectsWithout(s.objects, s.db.doomed, batch)) else s
  }

  function Marked(rows: map<Id, Doomed>, batch: set<Id>): map<Id, Doomed> {
    map b | b in rows :: if b in batch then rows[b].(deleted := true) else rows[b]
  }

  // delete_blob_batch
  function BlobBatch(s: State, j: Id, batch: set<Id>): (after: State)
    ensures s.spent <= after.spent
  {
    if j in s.db.jobs && batch <= PendingOf(s.db.doomed, j) then
      var job := s.db.jobs[j];
      SetJob(s.(db := s.db.(doomed := Marked(s.db.doomed, batch)), objects := ObjectsWithout(s.objects, s.db.doomed, batch)), j,
             job.(deletedBlobs := job.deletedBlobs + |batch|))
    else s
  }

  // complete_deletion
  function Complete(s: State, j: Id): (after: State)
    ensures s.spent <= after.spent
  {
    if j in s.db.jobs && PendingOf(s.db.doomed, j) == {} then
      SetJob(s.(db := s.db.(doomed := Keep(s.db.doomed, RowsOf(s.db.doomed, j)))), j, s.db.jobs[j].(status := Completed))
    else s
  }

  predicate NothingDeleted(job: Job) {
    job.deletedItems == 0 && job.deletedArtifacts == 0 && job.blobCount == 0
  }

  function Reopened(s: State, job: Job): (after: State)
    ensures SameStorage(s, after) && SameBlobCounts(s.db.jobs, after.db.jobs)
  {
    if NothingDeleted(job) then WithStatus(s, job.collection, job.previousStatus) else s
  }

  // fail_deletion
  function Fail(s: State, j: Id): (after: State)
    ensures SameStorage(s, after) && SameBlobCounts(s.db.jobs, after.db.jobs)
  {
    if j in s.db.jobs then
      var job := s.db.jobs[j];
      SetJob(Reopened(s, job), j, job.(status := Failed))
    else s
  }

  // ---------------------------------------------------------------- uploads

  // storage.put_fileobj under a key generated for a new blob; nothing is committed yet
  function PutObject(s: State, tenant: Id, key: Id, content: string): (after: State)
    ensures s.spent <= after.spent && after.db.jobs == s.db.jobs && after.db.doomed == s.db.doomed
  {
    if key in s.spent then s
    else s.(objects := s.objects[Location(tenant, key) := content], spent := s.spent + {key})
  }

  // The blob an upload refers to: the row its query found, or a row for the object it has put.
  datatype BlobRef = Reuse(id: Id) | Fresh(id: Id)

  predicate Stored(blobs: map<Id, Blob>, tenant: Id, content: string) {
    exists b :: b in blobs && blobs[b].tenant == tenant && blobs[b].content == content
  }

  // At commit the foreign key needs a reused row to be there still, and the unique constraint refuses a second
  // row for the same bytes.
  predicate BlobRefOk(s: State, tenant: Id, content: string, ref: BlobRef) {
    match ref
    case Reuse(b) => b in s.db.blobs && s.db.blobs[b].tenant == tenant && s.db.blobs[b].content == content
    case Fresh(b) =>
      && Location(tenant, b) in s.objects && s.objects[Location(tenant, b)] == content
      && b !in s.db.blobs && b !in s.db.doomed && !Stored(s.db.blobs, tenant, content)
  }

  // The artifact row, with its blob row when that is new.
  function WithArtifact(db: Database, tenant: Id, content: string, ref: BlobRef, a: Id): Database {
    db.(artifacts := db.artifacts[a := ref.id],
        blobs := if ref.Fresh? then db.blobs[ref.id := Blob(tenant, content, Location(tenant, ref.id))] else db.blobs)
  }

  predicate SourceTaken(items: map<Id, Item>, c: Id, source: string) {
    exists i :: i in items && items[i].collection == c && items[i].sourceItem == source
  }

  // upload_collection_item, when it inserts
  predicate CanAddItem(s: State, c: Id, source: string, parent: Option<Id>, container: Option<Id>) {
    && c in s.db.collections && s.db.collections[c].status == Open
    && (parent.Some? ==> parent.value in s.db.items && s.db.items[parent.value].collection == c)
    && (container.Some? ==> container.value in s.db.collectionLinks && s.db.collectionLinks[container.value] == c)
    && !SourceTaken(s.db.items, c, source)
  }

  function AddItem(s: State, c: Id, source: string, parent: Option<Id>, container: Option<Id>, content: string,
                   ref: BlobRef, i: Id, a: Id): (after: State)
    ensures s.spent <= after.spent && after.db.jobs == s.db.jobs && after.db.doomed == s.db.doomed
  {
    if CanAddItem(s, c, source, parent, container) && BlobRefOk(s, s.db.collections[c].tenant, content, ref)
       && i !in s.spent && a !in s.spent && i != a then
      var db := WithArtifact(s.db, s.db.collections[c].tenant, content, ref, a);
      s.(db := db.(items := db.items[i := Item(c, source, parent)],
                   itemLinks := db.itemLinks[a := ItemLink(i, "NATIVE", None)],
                   lineage := if container.Some? then db.lineage + {(a, container.value)} else db.lineage),
         spent := s.spent + {i, a})
    else s
  }

  // upload_source_container, when it inserts
  function AddContainer(s: State, c: Id, content: string, ref: BlobRef, a: Id): (after: State)
    ensures s.spent <= after.spent && after.db.jobs == s.db.jobs && after.db.doomed == s.db.doomed
  {
    if c in s.db.collections && s.db.collections[c].status == Open
       && BlobRefOk(s, s.db.collections[c].tenant, content, ref) && a !in s.spent then
      var db := WithArtifact(s.db, s.db.collections[c].tenant, content, ref, a);
      s.(db := db.(collectionLinks := db.collectionLinks[a := c]), spent := s.spent + {a})
    else s
  }

  predicate Derived(links: map<Id, ItemLink>, i: Id, role: string, key: string) {
    exists a :: a in links && links[a] == ItemLink(i, role, Some(key))
  }

  // store_derived_artifact, when it inserts
  predicate CanDerive(db: Database, i: Id, role: string, key: string, source: Id) {
    && i in db.items && db.items[i].collection in db.collections
    && !Derived(db.itemLinks, i, role, key)
    && source in db.itemLinks && db.itemLinks[source].item == i
  }

  function AddDerived(s: State, i: Id, role: string, key: string, source: Id, content: string, ref: BlobRef, a: Id): (after: State)
    ensures s.spent <= after.spent && after.db.jobs == s.db.jobs && after.db.doomed == s.db.doomed
  {
    if CanDerive(s.db, i, role, key, source) && a !in s.spent
       && BlobRefOk(s, s.db.collections[s.db.items[i].collection].tenant, content, ref) then
      var db := WithArtifact(s.db, s.db.collections[s.db.items[i].collection].tenant, content, ref, a);
      s.(db := db.(itemLinks := db.itemLinks[a := ItemLink(i, role, Some(key))], lineage := db.lineage + {(a, source)}),
         spent := s.spent + {a})
    else s
  }

  // ---------------------------------------------------------------- the rest of the service

  function AddCollection(s: State, c: Id, tenant: Id): (after: State)
    ensures SameStorage(s, after) && SameBlobCounts(s.db.jobs, after.db.jobs)
  {
    if c in s.spent then s
    else s.(db := s.db.(collections := s.db.collections[c := Collection(tenant, Open)]), spent := s.spent + {c})
  }

  // A user opens, seals or archives a collection that is not being deleted.
  function ChangeStatus(s: State, c: Id, status: CollectionStatus): (after: State)
    ensures SameStorage(s, after) && SameBlobCounts(s.db.jobs, after.db.jobs)
  {
    if c in s.db.collections && s.db.collections[c].status != Deleting && status != Deleting then
      WithStatus(s, c, status)
    else s
  }

  function Pairs(l: Id, items: set<Id>): set<(Id, Id)> {
    set i | i in items :: (l, i)
  }

  function AddSelection(s: State, l: Id, c: Id, items: set<Id>): (after: State)
    ensures SameStorage(s, after) && SameBlobCounts(s.db.jobs, after.db.jobs)
  {
    if c in s.db.collections && s.db.collections[c].status != Deleting && items <= ItemsOf(s.db.items, c) && l !in s.db.selections then
      s.(db := s.db.(selections := s.db.selections[l := c], selected := s.db.selected + Pairs(l, items)))
    else s
  }

  function RemoveSelection(s: State, l: Id): (after: State)
    ensures SameStorage(s, after) && SameBlobCounts(s.db.jobs, after.db.jobs)
  {
    s.(db := s.db.(selections := Keep(s.db.selections, {l}), selected := (set p | p in s.db.selected && p.0 != l)))
  }

  function StartRun(s: State, r: Id, c: Id): (after: State)
    ensures SameStorage(s, after) && SameBlobCounts(s.db.jobs, after.db.jobs)
  {
    if c in s.db.collections && s.db.collections[c].status == Open && !Processing(s.db.runs, c) && r !in s.db.runs then
      s.(db := s.db.(runs := s.db.runs[r := Run(c, true)]))
    else s
  }

  function EndRun(s: State, r: Id): (after: State)
    ensures SameStorage(s, after) && SameBlobCounts(s.db.jobs, after.db.jobs)
  {
    if r in s.db.runs then s.(db := s.db.(runs := s.db.runs[r := s.db.runs[r].(active := false)])) else s
  }

  // ---------------------------------------------------------------- runs of the whole service

  // One committed transaction, or one lasting effect of a transaction that did not commit.
  datatype Step =
    | SCreateJob(c: Id, j: Id, createdAt: int) | SRetry(j: Id) | SValidate(j: Id) | SPrepare(j: Id)
    | SItemBatch(j: Id, batch: set<Id>) | SRecord(j: Id) | SBlobBatch(j: Id, batch: set<Id>)
    | SInterrupted(j: Id, batch: set<Id>) | SComplete(j: Id) | SFail(j: Id)
    | SPutObject(tenant: Id, key: Id, content: string)
    | SAddItem(c: Id, source: string, parent: Option<Id>, container: Option<Id>, content: string, ref: BlobRef, i: Id, a: Id)
    | SAddContainer(c: Id, content: string, ref: BlobRef, a: Id)
    | SAddDerived(i: Id, role: string, derivationKey: string, origin: Id, content: string, ref: BlobRef, a: Id)
    | SAddCollection(c: Id, tenant: Id) | SChangeStatus(c: Id, status: CollectionStatus)
    | SAddSelection(l: Id, c: Id, items: set<Id>) | SRemoveSelection(l: Id)
    | SStartRun(r: Id, c: Id) | SEndRun(r: Id)

  function Apply(s: State, step: Step): (after: State)
    ensures s.spent <= after.spent
  {
    match step
    case SCreateJob(c, j, createdAt) => CreateJob(s, c, j, createdAt)
    case SRetry(j) => Retry(s, j)
    case SValidate(j) => Validate(s, j)
    case SPrepare(j) => Prepare(s, j)
    case SItemBatch(j, batch) => ItemBatch(s, j, batch)
    case SRecord(j) => Record(s, j)
    case SBlobBatch(j, batch) => BlobBatch(s, j, batch)
    case SInterrupted(j, batch) => InterruptedBlobBatch(s, j, batch)
    case SComplete(j) => Complete(s, j)
    case SFail(j) => Fail(s, j)
    case SPutObject(tenant, key, content) => PutObject(s, tenant, key, content)
    case SAddItem(c, source, parent, container, content, ref, i, a) => AddItem(s, c, source, parent, container, content, ref, i, a)
    case SAddContainer(c, content, ref, a) => AddContainer(s, c, content, ref, a)
    case SAddDerived(i, role, key, origin, content, ref, a) => AddDerived(s, i, role, key, origin, content, ref, a)
    case SAddCollection(c, tenant) => AddCollection(s, c, tenant)
    case SChangeStatus(c, status) => ChangeStatus(s, c, status)
    case SAddSelection(l, c, items) => AddSelection(s, l, c, items)
    case SRemoveSelection(l) => RemoveSelection(s, l)
    case SStartRun(r, c) => StartRun(s, r, c)
    case SEndRun(r) => EndRun(s, r)
  }

  function After(s: State, steps: seq<Step>): State {
    if steps == [] then s else Apply(After(s, steps[..|steps| - 1]), steps[|steps| - 1])
  }
}
