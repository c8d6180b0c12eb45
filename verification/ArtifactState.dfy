/**
  The rows and stored objects of the artifact service (artifact_service/models.py, storage.py), with the
  constraints that its tables carry.

  A digest is modelled by the content itself, so that hashing is injective.  A storage key is the id of
  the blob it was generated for, and a bucket belongs to one tenant.
 */
module ArtifactState {
  import opened Common

  type Id = nat

  datatype Location = Location(bucket: Id, key: Id)

  datatype CollectionStatus = Open | Sealed | Archived | Deleting

  datatype JobStatus = Queued | Validating | DeletingRows | DeletingBlobs | Completed | Failed

  datatype Collection = Collection(tenant: Id, status: CollectionStatus)

  datatype Item = Item(collection: Id, sourceItem: string, parent: Option<Id>)

  datatype ItemLink = ItemLink(item: Id, role: string, derivationKey: Option<string>)

  datatype Blob = Blob(tenant: Id, content: string, place: Location)

  datatype Job = Job(
    collection: Id,
    previousStatus: CollectionStatus,
    status: JobStatus,
    attempts: nat,
    createdAt: int,
    itemCount: nat,
    artifactCount: nat,
    blobCount: nat,
    deletedItems: nat,
    deletedArtifacts: nat,
    deletedBlobs: nat)

  // A row of collection_deletion_blob, keyed by the id of the blob it replaces.
  datatype Doomed = Doomed(job: Id, place: Location, deleted: bool)

  datatype Run = Run(collection: Id, active: bool)

  datatype Database = Database(
    collections: map<Id, Collection>,
    items: map<Id, Item>,
    artifacts: map<Id, Id>,            // artifact -> its blob
    itemLinks: map<Id, ItemLink>,      // artifact -> its collection item
    collectionLinks: map<Id, Id>,      // artifact -> its collection
    lineage: set<(Id, Id)>,            // (artifact, source artifact)
    selections: map<Id, Id>,           // selection -> its collection
    selected: set<(Id, Id)>,           // (selection, item)
    runs: map<Id, Run>,                // text processing runs
    blobs: map<Id, Blob>,
    jobs: map<Id, Job>,
    doomed: map<Id, Doomed>)

  // What is committed, what the object store holds, and the ids handed out so far.
  datatype State = State(db: Database, objects: map<Location, string>, spent: set<Id>)

  const NO_ROWS := Database(map[], map[], map[], map[], map[], {}, map[], {}, map[], map[], map[], map[])
  const EMPTY := State(NO_ROWS, map[], {})

  predicate Active(status: JobStatus) {
    status == Queued || status == Validating || status == DeletingRows || status == DeletingBlobs
  }

  // ---------------------------------------------------------------- rows of one collection or job

  function ItemsOf(items: map<Id, Item>, c: Id): set<Id> {
    set i | i in items && items[i].collection == c
  }

  function ArtifactsOfItems(links: map<Id, ItemLink>, items: set<Id>): set<Id> {
    set a | a in links && links[a].item in items
  }

  function ContainersOf(links: map<Id, Id>, c: Id): set<Id> {
    set a | a in links && links[a] == c
  }

  function RowsOf(rows: map<Id, Doomed>, j: Id): set<Id> {
    set b | b in rows && rows[b].job == j
  }

  function PendingOf(rows: map<Id, Doomed>, j: Id): set<Id> {
    set b | b in rows && rows[b].job == j && !rows[b].deleted
  }

  // Another job of the collection is active, which the unique index uq_collection_deletion_job_active refuses.
  predicate ActiveElsewhere(jobs: map<Id, Job>, j: Id, c: Id) {
    exists k :: k in jobs && k != j && Active(jobs[k].status) && jobs[k].collection == c
  }

  // ---------------------------------------------------------------- what every committed state satisfies

  // A parent lies in the same collection.
  predicate ParentInside(items: map<Id, Item>, i: Id) {
    i in items && items[i].parent.Some? ==>
      items[i].parent.value in items && items[items[i].parent.value].collection == items[i].collection
  }

  // Foreign keys of the items.
  ghost predicate ItemsOk(collections: set<Id>, items: map<Id, Item>) {
    && (forall i :: i in items ==> items[i].collection in collections)
    && (forall i :: ParentInside(items, i))
  }

  // Foreign keys of selections and text processing runs.
  ghost predicate SelectionsOk(collections: set<Id>, items: set<Id>, selections: map<Id, Id>, selected: set<(Id, Id)>, runs: map<Id, Run>) {
    && (forall l :: l in selections ==> selections[l] in collections)
    && (forall p :: p in selected ==> p.0 in selections && p.1 in items)
    && (forall r :: r in runs ==> runs[r].collection in collections)
  }

  // Every artifact hangs on exactly one item or collection, and every link and lineage row has its ends.
  ghost predicate LinksOk(collections: set<Id>, items: set<Id>, artifacts: set<Id>, itemLinks: map<Id, ItemLink>,
                          collectionLinks: map<Id, Id>, lineage: set<(Id, Id)>) {
    && artifacts == itemLinks.Keys + collectionLinks.Keys && itemLinks.Keys !! collectionLinks.Keys
    && (forall a :: a in itemLinks ==> itemLinks[a].item in items)
    && (forall a :: a in collectionLinks ==> collectionLinks[a] in collections)
    && (forall p :: p in lineage ==> p.0 in artifacts && p.1 in artifacts)
  }

  // An item has one artifact for each role and derivation key.
  ghost predicate DerivationsOk(links: map<Id, ItemLink>) {
    forall a, b :: a in links && b in links && links[a] == links[b] && links[a].derivationKey.Some? ==> a == b
  }

  // A blob row exists exactly while some artifact refers to it; a tenant's bytes are stored once.
  ghost predicate BlobsOk(artifacts: map<Id, Id>, blobs: map<Id, Blob>) {
    && artifacts.Values == blobs.Keys
    && (forall a, b :: a in blobs && b in blobs && blobs[a].tenant == blobs[b].tenant && blobs[a].content == blobs[b].content ==> a == b)
  }

  // Every live blob's object is stored under its own key, no live key is scheduled for deletion, and the
  // object of a row marked DELETED is gone.
  ghost predicate ObjectsOk(blobs: map<Id, Blob>, doomed: map<Id, Doomed>, objects: map<Location, string>) {
    && (forall b :: b in blobs ==>
          blobs[b].place == Location(blobs[b].tenant, b) && blobs[b].place in objects && objects[blobs[b].place] == blobs[b].content)
    && (forall b :: b in doomed ==> b !in blobs && doomed[b].place.key == b)
    && (forall b :: b in doomed && doomed[b].deleted ==> doomed[b].place !in objects)
    && (forall p :: p in objects && p.key in doomed ==> doomed[p.key].place == p)
  }

  // Ids are handed out once: every row, object and job names ids that are spent.
  ghost predicate IdsOk(collections: set<Id>, items: set<Id>, artifacts: set<Id>, blobs: set<Id>, doomed: set<Id>, spent: set<Id>) {
    collections <= spent && items <= spent && artifacts <= spent && blobs <= spent && doomed <= spent
  }

  ghost predicate KeysOk(objects: map<Location, string>, spent: set<Id>) {
    && (forall p :: p in objects ==> p.key in spent)
    && (forall p, q :: p in objects && q in objects && p.key == q.key ==> p == q)
  }

  ghost predicate JobIdsOk(jobs: map<Id, Job>, spent: set<Id>) {
    forall j :: j in jobs ==> j in spent && jobs[j].collection in spent
  }

  // blob_count - deleted_blob_count is the number of rows still PENDING.
  ghost predicate CountsOk(jobs: map<Id, Job>, doomed: map<Id, Doomed>) {
    && (forall b :: b in doomed ==> doomed[b].job in jobs)
    && (forall j :: j in jobs ==> jobs[j].blobCount == jobs[j].deletedBlobs + |PendingOf(doomed, j)|)
  }

  // A collection has one active deletion job at most.
  ghost predicate JobsOk(jobs: map<Id, Job>) {
    forall j :: j in jobs && Active(jobs[j].status) ==> !ActiveElsewhere(jobs, j, jobs[j].collection)
  }

  datatype Rule = ItemRows | SelectionRows | Links | Derivations | Blobs | Objects | Ids | StorageKeys | JobIds | Counts | ActiveJobs

  ghost predicate Holds(rule: Rule, s: State) {
    match rule
    case ItemRows => ItemsOk(s.db.collections.Keys, s.db.items)
    case SelectionRows => SelectionsOk(s.db.collections.Keys, s.db.items.Keys, s.db.selections, s.db.selected, s.db.runs)
    case Links =>
      LinksOk(s.db.collections.Keys, s.db.items.Keys, s.db.artifacts.Keys, s.db.itemLinks, s.db.collectionLinks, s.db.lineage)
    case Derivations => DerivationsOk(s.db.itemLinks)
    case Blobs => BlobsOk(s.db.artifacts, s.db.blobs)
    case Objects => ObjectsOk(s.db.blobs, s.db.doomed, s.objects)
    case Ids => IdsOk(s.db.collections.Keys, s.db.items.Keys, s.db.artifacts.Keys, s.db.blobs.Keys, s.db.doomed.Keys, s.spent)
    case StorageKeys => KeysOk(s.objects, s.spent)
    case JobIds => JobIdsOk(s.db.jobs, s.spent)
    case Counts => CountsOk(s.db.jobs, s.db.doomed)
    case ActiveJobs => JobsOk(s.db.jobs)
  }

  // What every committed state satisfies; a proof names the rules it uses.
  ghost predicate Consistent(s: State) {
    forall rule :: Holds(rule, s)
  }
}
