/**
  The artifact service as one object: the committed rows, the object store, and the methods of
  artifact_service/deletion.py, service.py and derived.py that change them.  A method works on its own copy
  of the rows and commits it at the end; storage calls take effect at once.
 */
module ArtifactService {
  import opened Common
  import opened ArtifactState
  import opened DeletionSpec
  import opened DeletionSafety
  import opened DeletionOutcome
  import opened DeletionCounts
  import opened DeletionCourse
  import opened DeletionReopening

  const DATABASE_BATCH_SIZE: nat := 1000
  const BLOB_BATCH_SIZE: nat := 250

  datatype Batch = Batch(deleted: nat, hasMore: bool)

  // ---------------------------------------------------------------- ordered, limited queries

  method LeastId(s: set<Id>) returns (least: Id)
    requires s != {}
    ensures least in s && forall x :: x in s ==> least <= x
  {
    least :| least in s;
    var rest := s - {least};
    while rest != {}
      invariant rest <= s && least in s
      invariant forall x :: x in s && x !in rest ==> least <= x
      decreases rest
    {
      var x :| x in rest;
      if x < least {
        least := x;
      }
      rest := rest - {x};
    }
  }

  // SELECT ... ORDER BY id LIMIT n
  method FirstIds(s: set<Id>, n: nat) returns (batch: set<Id>)
    ensures batch <= s && |batch| == if n < |s| then n else |s|
    ensures forall x, y :: x in batch && y in s && y !in batch ==> x < y
  {
    batch := {};
    var rest := s;
    while |batch| < n && rest != {}
      invariant batch !! rest && batch + rest == s && |batch| <= n
      invariant forall x, y :: x in batch && y in rest ==> x < y
      decreases rest
    {
      var x := LeastId(rest);
      batch, rest := batch + {x}, rest - {x};
    }
    assert |batch + rest| == |batch| + |rest|;
  }

  // ---------------------------------------------------------------- _delete_artifacts_and_schedule_blobs

  lemma NoOrphans(artifacts: map<Id, Id>, blobs: map<Id, Blob>)
    ensures Orphans(artifacts, blobs, {}) == {}
  {
  }

  lemma NothingToRemove(db: Database, j: Id)
    requires j in db.jobs
    ensures WithoutArtifacts(db, j, {}) == db
  {
    NoOrphans(db.artifacts, db.blobs);
    KeepNone(db.artifacts);
    KeepNone(db.itemLinks);
    KeepNone(db.collectionLinks);
    KeepNone(db.blobs);
    assert KeepPairs(db.lineage, {}) == db.lineage;
    assert db.doomed + Scheduled(db.blobs, j, {}) == db.doomed;
    assert WithBlobCount(db.jobs, j, 0) == db.jobs;
  }

  lemma ScheduleOne(blobs: map<Id, Blob>, doomed: map<Id, Doomed>, j: Id, done: set<Id>, b: Id)
    requires b in blobs && b !in done
    ensures Keep(Keep(blobs, done), {b}) == Keep(blobs, done + {b})
    ensures (doomed + Scheduled(blobs, j, done))[b := Doomed(j, blobs[b].place, false)] == doomed + Scheduled(blobs, j, done + {b})
  {
  }

  // The blobs of `done` are unlinked from `blobs0` and scheduled by job j.
  ghost predicate IsScheduled(blobs0: map<Id, Blob>, doomed0: map<Id, Doomed>, j: Id, done: set<Id>,
                              blobs: map<Id, Blob>, doomed: map<Id, Doomed>, scheduled: nat) {
    blobs == Keep(blobs0, done) && doomed == doomed0 + Scheduled(blobs0, j, done) && scheduled == |done|
  }

  lemma NoneScheduled(blobs: map<Id, Blob>, doomed: map<Id, Doomed>, j: Id)
    ensures IsScheduled(blobs, doomed, j, {}, blobs, doomed, 0)
  {
    KeepNone(blobs);
    assert doomed + Scheduled(blobs, j, {}) == doomed;
  }

  // One turn of the loop over the blobs of the deleted artifacts; `done` are the blobs scheduled so far.
  method ScheduleBlob(referenced: set<Id>, blobs: map<Id, Blob>, doomed: map<Id, Doomed>, scheduled: nat, j: Id, b: Id,
                      ghost blobs0: map<Id, Blob>, ghost doomed0: map<Id, Doomed>, ghost done: set<Id>)
    returns (blobs': map<Id, Blob>, doomed': map<Id, Doomed>, scheduled': nat)
    requires b !in done && IsScheduled(blobs0, doomed0, j, done, blobs, doomed, scheduled)
    ensures IsScheduled(blobs0, doomed0, j, done + if b in blobs0 && b !in referenced then {b} else {}, blobs', doomed', scheduled')
  {
    if b in referenced || b !in blobs {
      assert done + {} == done;
      return blobs, doomed, scheduled;
    }
    ScheduleOne(blobs0, doomed0, j, done, b);
    return Keep(blobs, {b}), doomed[b := Doomed(j, blobs[b].place, false)], scheduled + 1;
  }

  function OrphansAmong(blobIds: set<Id>, blobs: map<Id, Blob>, referenced: set<Id>): set<Id> {
    blobIds * blobs.Keys - referenced
  }

  lemma OneBlobLess(blobIds: set<Id>, blobs: map<Id, Blob>, referenced: set<Id>, todo: set<Id>, b: Id)
    requires b in todo && todo <= blobIds
    ensures var orphans := OrphansAmong(blobIds, blobs, referenced);
      && b !in orphans - todo
      && orphans - (todo - {b}) == (orphans - todo) + if b in blobs && b !in referenced then {b} else {}
  {
  }

  lemma AllOrNone(orphans: set<Id>, blobIds: set<Id>)
    requires orphans <= blobIds
    ensures orphans - blobIds == {} && orphans - {} == orphans
  {
  }

  method ScheduleBlobs(referenced: set<Id>, blobs: map<Id, Blob>, doomed: map<Id, Doomed>, j: Id, blobIds: set<Id>)
    returns (blobs': map<Id, Blob>, doomed': map<Id, Doomed>, scheduled: nat)
    ensures IsScheduled(blobs, doomed, j, OrphansAmong(blobIds, blobs, referenced), blobs', doomed', scheduled)
  {
    blobs', doomed', scheduled := blobs, doomed, 0;
    var todo := blobIds;
    ghost var orphans := OrphansAmong(blobIds, blobs, referenced);
    NoneScheduled(blobs, doomed, j);
    AllOrNone(orphans, blobIds);
    while todo != {}
      invariant todo <= blobIds && IsScheduled(blobs, doomed, j, orphans - todo, blobs', doomed', scheduled)
      decreases todo
    {
      var b :| b in todo;
      OneBlobLess(blobIds, blobs, referenced, todo, b);
      blobs', doomed', scheduled := ScheduleBlob(referenced, blobs', doomed', scheduled, j, b, blobs, doomed, orphans - todo);
      todo := todo - {b};
    }
  }

  lemma OrphansFound(db: Database, dead: set<Id>)
    ensures OrphansAmong(set a | a in db.artifacts && a in dead :: db.artifacts[a], db.blobs, Keep(db.artifacts, dead).Values)
         == Orphans(db.artifacts, db.blobs, dead)
  {
  }

  method DeleteArtifactsAndScheduleBlobs(session: Database, j: Id, dead: set<Id>) returns (after: Database, count: nat)
    requires j in session.jobs
    ensures after == WithoutArtifacts(session, j, dead) && count == |dead|
  {
    if dead == {} {
      NothingToRemove(session, j);
      return session, 0;
    }
    var blobIds := set a | a in session.artifacts && a in dead :: session.artifacts[a];
    var lineage := KeepPairs(session.lineage, dead);
    var itemLinks := Keep(session.itemLinks, dead);
    var collectionLinks := Keep(session.collectionLinks, dead);
    var artifacts := Keep(session.artifacts, dead);
    var blobs, doomed, scheduled := ScheduleBlobs(artifacts.Values, session.blobs, session.doomed, j, blobIds);
    OrphansFound(session, dead);
    after := session.(artifacts := artifacts, itemLinks := itemLinks, collectionLinks := collectionLinks, lineage := lineage,
                      blobs := blobs, doomed := doomed, jobs := WithBlobCount(session.jobs, j, scheduled));
    return after, |dead|;
  }

  // ---------------------------------------------------------------- the loop of delete_blob_batch

  // storage.delete
  function Without(objects: map<Location, string>, place: Location): map<Location, string> {
    map p | p in objects && p != place :: objects[p]
  }

  lemma DeleteOneMore(objects: map<Location, string>, rows: map<Id, Doomed>, done: set<Id>, b: Id)
    requires b in rows && b !in done
    ensures Without(ObjectsWithout(objects, rows, done), rows[b].place) == ObjectsWithout(objects, rows, done + {b})
    ensures Marked(rows, done)[b := rows[b].(deleted := true)] == Marked(rows, done + {b})
    ensures Marked(rows, done)[b] == rows[b]
  {
  }

  lemma NoneDeleted(objects: map<Location, string>, rows: map<Id, Doomed>)
    ensures ObjectsWithout(objects, rows, {}) == objects && Marked(rows, {}) == rows
  {
  }

  // ---------------------------------------------------------------- the statements of one transaction

  method CountDeleted(session: Database, j: Id, items: nat, artifacts: nat, ghost s: State) returns (after: Database)
    requires s.db == session && j in session.jobs
    ensures s.(db := after) == Counted(s, j, items, artifacts)
  {
    var job := session.jobs[j];
    job := job.(deletedItems := job.deletedItems + items, deletedArtifacts := job.deletedArtifacts + artifacts);
    return session.(jobs := session.jobs[j := job]);
  }

  method DeleteRows(session: Database, itemIds: set<Id>, ghost s: State) returns (after: Database)
    requires s.db == session
    ensures s.(db := after) == WithoutItems(s, itemIds)
  {
    return session.(items := Keep(session.items, itemIds), selected := (set p | p in session.selected && p.1 !in itemIds));
  }

  method DeleteItemRows(session: Database, j: Id, itemIds: set<Id>, ghost s: State) returns (after: Database)
    requires s.db == session && CanDeleteItems(session, j, itemIds)
    ensures s.(db := after) == ItemBatch(s, j, itemIds)
  {
    var artifactIds := ArtifactsOfItems(session.itemLinks, itemIds);
    var count;
    after, count := DeleteArtifactsAndScheduleBlobs(session, j, artifactIds);
    ghost var s1 := Removed(s, j, artifactIds);
    after := DeleteRows(after, itemIds, s1);
    after := CountDeleted(after, j, |itemIds|, count, WithoutItems(s1, itemIds));
  }

  method DeleteCollectionRows(session: Database, c: Id, ghost s: State) returns (after: Database)
    requires s.db == session
    ensures s.(db := after) == WithoutCollection(s, c)
  {
    return session.(
      selected := (set p | p in session.selected && !(p.0 in session.selections && session.selections[p.0] == c)),
      selections := (map l | l in session.selections && session.selections[l] != c :: session.selections[l]),
      runs := (map r | r in session.runs && session.runs[r].collection != c :: session.runs[r]),
      collections := Keep(session.collections, {c}));
  }

  method DeleteRecordRows(session: Database, j: Id, c: Id, ghost s: State) returns (after: Database, count: nat)
    requires s.db == session && j in session.jobs
    ensures s.(db := after) == WithoutRecord(s, j, c) && count == |ContainersOf(session.collectionLinks, c)|
  {
    var artifactIds := ContainersOf(session.collectionLinks, c);
    after, count := DeleteArtifactsAndScheduleBlobs(session, j, artifactIds);
    ghost var s1 := Removed(s, j, artifactIds);
    after := DeleteCollectionRows(after, c, s1);
    after := CountDeleted(after, j, 0, count, WithoutCollection(s1, c));
  }

  method AddItemRows(session: Database, tenant: Id, c: Id, source: string, parent: Option<Id>, container: Option<Id>, content: string,
                     blob: BlobRef, i: Id, a: Id, ghost s: State)
    returns (after: Database)
    requires s.db == session && CanAddItem(s, c, source, parent, container) && tenant == session.collections[c].tenant
    requires BlobRefOk(s, tenant, content, blob) && i !in s.spent && a !in s.spent && i != a
    ensures s.(db := after, spent := s.spent + {i, a}) == AddItem(s, c, source, parent, container, content, blob, i, a)
  {
    after := WithArtifact(session, tenant, content, blob, a);
    after := after.(items := after.items[i := Item(c, source, parent)],
                    itemLinks := after.itemLinks[a := ItemLink(i, "NATIVE", None)]);
    if container.Some? {
      after := after.(lineage := after.lineage + {(a, container.value)});
    }
  }

  method AddDerivedRows(session: Database, tenant: Id, i: Id, role: string, key: string, source: Id, content: string,
                        blob: BlobRef, a: Id, ghost s: State)
    returns (after: Database)
    requires s.db == session && CanDerive(session, i, role, key, source) && tenant == session.collections[session.items[i].collection].tenant
    requires BlobRefOk(s, tenant, content, blob) && a !in s.spent
    ensures s.(db := after, spent := s.spent + {a}) == AddDerived(s, i, role, key, source, content, blob, a)
  {
    after := WithArtifact(session, tenant, content, blob, a);
    after := after.(itemLinks := after.itemLinks[a := ItemLink(i, role, Some(key))], lineage := after.lineage + {(a, source)});
  }

  // ---------------------------------------------------------------- requests

  // What an upload may refer to.
  function UploadError(db: Database, c: Id, parent: Option<Id>, container: Option<Id>): Option<Error> {
    if c !in db.collections then Some(CollectionNotFound)
    else if db.collections[c].status != Open then Some(NotOpen)
    else if parent.Some? && (parent.value !in db.items || db.items[parent.value].collection != c) then Some(InvalidParent)
    else if container.Some? && (container.value !in db.collectionLinks || db.collectionLinks[container.value] != c) then Some(InvalidSource)
    else None
  }

  predicate IsUploaded(db: Database, i: Id, c: Id, source: string) {
    i in db.items && db.items[i].collection == c && db.items[i].sourceItem == source
  }

  // The item's native file has this content.
  predicate IsNative(db: Database, i: Id, content: string) {
    exists n :: n in db.itemLinks && db.itemLinks[n].item == i && db.itemLinks[n].role == "NATIVE" && n in db.artifacts
      && db.artifacts[n] in db.blobs && db.blobs[db.artifacts[n]].content == content
  }

  // The artifact's file has this content, for the tenant of collection c.
  ghost predicate HoldsContent(db: Database, a: Id, c: Id, content: string) {
    && a in db.artifacts && db.artifacts[a] in db.blobs && c in db.collections
    && db.blobs[db.artifacts[a]].content == content && db.blobs[db.artifacts[a]].tenant == db.collections[c].tenant
  }

  // One item with its parent, its native artifact, and the lineage from the artifact to the container it came from.
  ghost predicate ItemAdded(before: Database, c: Id, source: string, parent: Option<Id>, container: Option<Id>, content: string,
                            i: Id, a: Id, after: Database) {
    && i !in before.items && a !in before.artifacts
    && after.items == before.items[i := Item(c, source, parent)]
    && after.itemLinks == before.itemLinks[a := ItemLink(i, "NATIVE", None)]
    && after.lineage == (if container.Some? then before.lineage + {(a, container.value)} else before.lineage)
    && HoldsContent(after, a, c, content)
    && after == before.(items := after.items, itemLinks := after.itemLinks, lineage := after.lineage,
                        artifacts := before.artifacts[a := after.artifacts[a]],
                        blobs := before.blobs[after.artifacts[a] := after.blobs[after.artifacts[a]]])
  }

  // One artifact of the item, and the lineage from it to the artifact it was derived from.
  ghost predicate ArtifactDerived(before: Database, i: Id, role: string, key: string, source: Id, content: string, a: Id, after: Database) {
    && i in before.items && a !in before.artifacts
    && after.itemLinks == before.itemLinks[a := ItemLink(i, role, Some(key))]
    && after.lineage == before.lineage + {(a, source)}
    && HoldsContent(after, a, before.items[i].collection, content)
    && after == before.(itemLinks := after.itemLinks, lineage := after.lineage,
                        artifacts := before.artifacts[a := after.artifacts[a]],
                        blobs := before.blobs[after.artifacts[a] := after.blobs[after.artifacts[a]]])
  }

  lemma ItemRowsAdded(s: State, c: Id, source: string, parent: Option<Id>, container: Option<Id>, content: string, ref: BlobRef, i: Id, a: Id)
    requires Consistent(s) && CanAddItem(s, c, source, parent, container) && BlobRefOk(s, s.db.collections[c].tenant, content, ref)
    requires i !in s.spent && a !in s.spent && i != a
    ensures ItemAdded(s.db, c, source, parent, container, content, i, a, AddItem(s, c, source, parent, container, content, ref, i, a).db)
  {
    SpentRows(s, i);
    SpentRows(s, a);
    ReusedBlob(s.db.blobs, ref);
  }

  lemma ReusedBlob(blobs: map<Id, Blob>, ref: BlobRef)
    ensures ref.id in blobs ==> blobs[ref.id := blobs[ref.id]] == blobs
  {
  }

  lemma ArtifactRowsDerived(s: State, i: Id, role: string, key: string, source: Id, content: string, ref: BlobRef, a: Id)
    requires Consistent(s) && CanDerive(s.db, i, role, key, source) && a !in s.spent
    requires BlobRefOk(s, s.db.collections[s.db.items[i].collection].tenant, content, ref)
    ensures ArtifactDerived(s.db, i, role, key, source, content, a, AddDerived(s, i, role, key, source, content, ref, a).db)
  {
    SpentRows(s, a);
    ReusedBlob(s.db.blobs, ref);
  }

  predicate IsNewest(jobs: map<Id, Job>, j: Id, c: Id) {
    && j in jobs && jobs[j].collection == c
    && forall k :: k in jobs && jobs[k].collection == c ==> jobs[k].createdAt <= jobs[j].createdAt
  }

  // The failed job, and its collection: handed back with the status it had before exactly if no item, no artifact and
  // no blob was deleted or scheduled, and otherwise left alone.
  ghost predicate FailedAs(before: Database, j: Id, after: Database)
    requires j in before.jobs
  {
    var job := before.jobs[j];
    && after == before.(jobs := after.jobs, collections := after.collections)
    && after.jobs == before.jobs[j := job.(status := Failed)]
    && (if job.collection in before.collections && job.deletedItems == 0 && job.deletedArtifacts == 0 && job.blobCount == 0
        then after.collections == before.collections[job.collection := before.collections[job.collection].(status := job.previousStatus)]
        else after.collections == before.collections)
  }

  // The row of a new job: QUEUED on its first attempt, with the status to hand back and the numbers of rows to delete.
  ghost predicate JobCreated(before: Database, c: Id, j: Id, createdAt: int, after: Database)
    requires c in before.collections
  {
    && after == before.(jobs := after.jobs, collections := after.collections)
    && after.jobs == before.jobs[j := Job(c, before.collections[c].status, Queued, 1, createdAt,
                                          |ItemsOf(before.items, c)|, |ArtifactsOf(before, c)|, 0, 0, 0, 0)]
    && after.collections == before.collections[c := before.collections[c].(status := Deleting)]
  }

  lemma CreatedRow(s: State, c: Id, j: Id, createdAt: int)
    requires Creates(s, c, j)
    ensures JobCreated(s.db, c, j, createdAt, CreateJob(s, c, j, createdAt).db)
  {
    SpentRows(s, j);
    assert Holds(Links, s);
    ApartSizes(ArtifactsOfItems(s.db.itemLinks, ItemsOf(s.db.items, c)), ContainersOf(s.db.collectionLinks, c));
  }

  lemma ApartSizes(a: set<Id>, b: set<Id>)
    requires a !! b
    ensures |a + b| == |a| + |b|
  {
  }

  // A failure after VALIDATING, or right after the creation, does what a failure before would have done.
  lemma FailedAfterStatus(before: Database, j: Id, status: JobStatus, mid: Database, after: Database)
    requires j in before.jobs && OnlyStatus(before, j, status, mid) && FailedAs(mid, j, after)
    ensures FailedAs(before, j, after)
  {
  }

  lemma FailedAfterCreation(before: Database, c: Id, j: Id, createdAt: int, mid: Database, after: Database)
    requires c in before.collections && JobCreated(before, c, j, createdAt, mid) && FailedAs(mid, j, after)
    ensures after.jobs[j].status == Failed && after == before.(jobs := before.jobs[j := after.jobs[j]])
  {
    StatusGivenBack(before.collections, c);
  }

  // What a job that deletes collection c leaves, and what it reports.
  ghost predicate CollectionDeleted(before: State, c: Id, j: Id, after: State) {
    && OnlyCollectionGone(before, c, j, after)
    && j in after.db.jobs && after.db.jobs[j].status == Completed
    && after.db.jobs[j].deletedItems == |ItemsOf(before.db.items, c)| && after.db.jobs[j].deletedArtifacts == |ArtifactsOf(before.db, c)|
    && after.db.jobs[j].deletedBlobs == after.db.jobs[j].blobCount
  }

  lemma StatusGivenBack(collections: map<Id, Collection>, c: Id)
    requires c in collections
    ensures var deleting := collections[c := collections[c].(status := Deleting)];
      deleting[c := deleting[c].(status := collections[c].status)] == collections
  {
  }

  lemma SameRowsSameRest(before: State, start: State, c: Id, j: Id, after: State)
    requires start.db == before.db.(jobs := start.db.jobs, collections := start.db.collections) && start.objects == before.objects
    requires start.db.collections.Keys == before.db.collections.Keys
    requires forall d :: d in before.db.collections && d != c ==> start.db.collections[d] == before.db.collections[d]
    requires OnlyCollectionGone(start, c, j, after)
    ensures OnlyCollectionGone(before, c, j, after)
  {
    assert ArtifactsOf(start.db, c) == ArtifactsOf(before.db, c);
    forall p ensures OnlyFor(start, c, j, p) == OnlyFor(before, c, j, p) {
    }
  }

  lemma DeletedSinceCreation(before: State, c: Id, j: Id, createdAt: int, after: State)
    requires Creates(before, c, j)
    requires var start := CreateJob(before, c, j, createdAt); j in start.db.jobs && Arrived(after, j, CourseOf(start, j))
    ensures CollectionDeleted(before, c, j, after)
  {
    var start := CreateJob(before, c, j, createdAt);
    CreatedRow(before, c, j, createdAt);
    DeletionIsExact(start, j, after);
    SameRowsSameRest(before, start, c, j, after);
    assert ArtifactsOf(start.db, c) == ArtifactsOf(before.db, c);
  }

  // Job j alone has a new status, and nothing else has changed.
  ghost predicate OnlyStatus(before: Database, j: Id, status: JobStatus, after: Database)
    requires j in before.jobs
  {
    after == before.(jobs := before.jobs[j := before.jobs[j].(status := status)])
  }

  // A failed job is QUEUED for another attempt, and its collection, if it is still there, is DELETING again.
  ghost predicate Requeued(before: Database, j: Id, after: Database)
    requires j in before.jobs
  {
    var job := before.jobs[j];
    && after == before.(jobs := before.jobs[j := job.(status := Queued, attempts := job.attempts + 1)], collections := after.collections)
    && (if job.collection in before.collections
        then after.collections == before.collections[job.collection := before.collections[job.collection].(status := Deleting)]
        else after.collections == before.collections)
  }

  // The job is DELETING_DATABASE_ROWS, and exactly the items of its collection have lost their parents.
  ghost predicate Prepared(before: Database, j: Id, after: Database)
    requires j in before.jobs
  {
    var c := before.jobs[j].collection;
    && after == before.(jobs := before.jobs[j := before.jobs[j].(status := DeletingRows)], items := after.items)
    && after.items.Keys == before.items.Keys
    && (forall i :: i in after.items ==>
          after.items[i] == before.items[i].(parent := if before.items[i].collection == c then None else before.items[i].parent))
  }

  class Service {
    var db: Database
    var objects: map<Location, string>
    var spent: set<Id>

    constructor ()
      ensures View() == EMPTY && Valid()
    {
      db, objects, spent := NO_ROWS, map[], {};
      new;
      EmptyIsConsistent();
    }

    function View(): State
      reads this
    {
      State(db, objects, spent)
    }

    ghost predicate Valid()
      reads this
    {
      Consistent(View())
    }

    // uuid4: an id that was not handed out before
    method NewId() returns (id: Id)
      modifies this`spent
      ensures id !in old(spent) && spent == old(spent) + {id}
    {
      id := 0;
      var rest := spent;
      while rest != {}
        invariant rest <= spent && forall x :: x in spent && x !in rest ==> x < id
        decreases rest
      {
        var x :| x in rest;
        if id <= x {
          id := x + 1;
        }
        rest := rest - {x};
      }
      spent := spent + {id};
    }

    // -------------------------------------------------------------- uploads

    // get_or_create_blob: the row with the same bytes, or a fresh key under which they are stored.
    method GetOrCreateBlob(tenant: Id, content: string) returns (ref: BlobRef)
      requires Valid()
      modifies this`objects, this`spent
      ensures Valid() && BlobRefOk(View(), tenant, content, ref)
      ensures ref.Reuse? ==> View() == old(View())
      ensures ref.Fresh? ==> !Stored(db.blobs, tenant, content) && ref.id !in old(spent) && View() == PutObject(old(View()), tenant, ref.id, content)
    {
      if b :| b in db.blobs && db.blobs[b].tenant == tenant && db.blobs[b].content == content {
        return Reuse(b);
      }
      ghost var before := View();
      var key := NewId();
      objects := objects[Location(tenant, key) := content];
      PutObjectKeeps(before, tenant, key, content);
      SpentRows(before, key);
      return Fresh(key);
    }

    // The checks of upload_collection_item on what the request refers to.
    method CheckUpload(c: Id, parent: Option<Id>, container: Option<Id>) returns (error: Option<Error>)
      ensures error == UploadError(db, c, parent, container)
    {
      if c !in db.collections {
        return Some(CollectionNotFound);
      }
      if db.collections[c].status != Open {
        return Some(NotOpen);
      }
      if parent.Some? && (parent.value !in db.items || db.items[parent.value].collection != c) {
        return Some(InvalidParent);
      }
      if container.Some? && (container.value !in db.collectionLinks || db.collectionLinks[container.value] != c) {
        return Some(InvalidSource);
      }
      return None;
    }

    method HasContent(i: Id, content: string) returns (same: bool)
      ensures same == IsNative(db, i, content)
    {
      if n :| n in db.itemLinks && db.itemLinks[n].item == i && db.itemLinks[n].role == "NATIVE" && n in db.artifacts
              && db.artifacts[n] in db.blobs && db.blobs[db.artifacts[n]].content == content {
        return true;
      }
      return false;
    }

    // The rows of a new item, its artifact and, where they are new, its blob.
    method InsertItem(c: Id, source: string, parent: Option<Id>, container: Option<Id>, content: string)
      returns (i: Id, ghost mid: State, ghost ref: BlobRef, ghost a: Id)
      requires Valid() && CanAddItem(View(), c, source, parent, container)
      modifies this
      ensures Valid() && (mid == old(View()) || mid == PutObject(old(View()), old(db.collections[c].tenant), ref.id, content))
      ensures View() == AddItem(mid, c, source, parent, container, content, ref, i, a) && View() != mid
      ensures ItemAdded(old(db), c, source, parent, container, content, i, a, db)
    {
      var tenant := db.collections[c].tenant;
      var blob := GetOrCreateBlob(tenant, content);
      mid, ref := View(), blob;
      i := NewId();
      var artifact := NewId();
      a := artifact;
      AddItemKeeps(mid, c, source, parent, container, content, blob, i, a);
      ItemRowsAdded(mid, c, source, parent, container, content, blob, i, a);
      db := AddItemRows(db, tenant, c, source, parent, container, content, blob, i, artifact, mid);
      assert View() == AddItem(mid, c, source, parent, container, content, ref, i, a);
      assert i in spent && i !in mid.spent;
    }

    // upload_collection_item
    method UploadItem(c: Id, source: string, parent: Option<Id>, container: Option<Id>, content: string)
      returns (r: Result<Id, Error>, created: bool, ghost mid: State, ghost ref: BlobRef, ghost a: Id)
      requires Valid()
      modifies this
      ensures Valid() && (r.Err? ==> !created)
      ensures !created ==> View() == old(View())
      ensures created ==> (mid == old(View()) || (c in old(db.collections) && mid == PutObject(old(View()), old(db.collections)[c].tenant, ref.id, content)))
      ensures created ==> View() == AddItem(mid, c, source, parent, container, content, ref, r.value, a) && View() != mid
      ensures created <==> old(CanAddItem(View(), c, source, parent, container))
      ensures created ==> ItemAdded(old(db), c, source, parent, container, content, r.value, a, db)
      ensures r.Ok? && !created ==> IsUploaded(db, r.value, c, source) && IsNative(db, r.value, content)
      ensures old(UploadError(db, c, parent, container)).Some? ==> r == Err(old(UploadError(db, c, parent, container)).value)
      ensures r.Err? && old(UploadError(db, c, parent, container)) == None ==>
        r.error == ContentMismatch && exists i :: IsUploaded(db, i, c, source) && !IsNative(db, i, content)
    {
      created, mid, ref, a := false, View(), Reuse(0), 0;
      var error := CheckUpload(c, parent, container);
      if error.Some? {
        return Err(error.value), false, mid, ref, a;
      }
      if i :| i in db.items && db.items[i].collection == c && db.items[i].sourceItem == source {
        assert IsUploaded(db, i, c, source);
        var same := HasContent(i, content);
        return if same then Ok(i) else Err(ContentMismatch), false, mid, ref, a;
      }
      var i;
      i, mid, ref, a := InsertItem(c, source, parent, container, content);
      return Ok(i), true, mid, ref, a;
    }

    method InsertDerived(i: Id, role: string, key: string, source: Id, content: string) returns (a: Id, ghost mid: State, ghost ref: BlobRef)
      requires Valid() && CanDerive(db, i, role, key, source)
      modifies this
      ensures Valid() && (mid == old(View()) || (exists tenant :: mid == PutObject(old(View()), tenant, ref.id, content)))
      ensures View() == AddDerived(mid, i, role, key, source, content, ref, a)
      ensures ArtifactDerived(old(db), i, role, key, source, content, a, db)
    {
      var tenant := db.collections[db.items[i].collection].tenant;
      var blob := GetOrCreateBlob(tenant, content);
      mid, ref := View(), blob;
      a := NewId();
      AddDerivedKeeps(mid, i, role, key, source, content, blob, a);
      ArtifactRowsDerived(mid, i, role, key, source, content, blob, a);
      db := AddDerivedRows(db, tenant, i, role, key, source, content, blob, a, mid);
      assert View() == AddDerived(mid, i, role, key, source, content, ref, a);
    }

    // store_derived_artifact
    method StoreDerivedArtifact(i: Id, role: string, key: string, source: Id, content: string)
      returns (r: Result<Id, Error>, created: bool, ghost mid: State, ghost ref: BlobRef)
      requires Valid() && i in db.items
      modifies this
      ensures Valid() && (r.Err? ==> !created)
      ensures !created ==> View() == old(View())
      ensures created ==> (mid == old(View()) ||
        (exists tenant :: mid == PutObject(old(View()), tenant, ref.id, content)))
      ensures created ==> View() == AddDerived(mid, i, role, key, source, content, ref, r.value)
      ensures created <==> old(CanDerive(db, i, role, key, source))
      ensures created ==> ArtifactDerived(old(db), i, role, key, source, content, r.value, db)
      ensures r.Ok? ==> r.value in db.itemLinks && db.itemLinks[r.value] == ItemLink(i, role, Some(key))
      ensures r.Err? ==> r.error == InvalidSource
    {
      created, mid, ref := false, View(), Reuse(0);
      if a :| a in db.itemLinks && db.itemLinks[a] == ItemLink(i, role, Some(key)) {
        return Ok(a), false, mid, ref;
      }
      if source !in db.itemLinks || db.itemLinks[source].item != i {
        return Err(InvalidSource), false, mid, ref;
      }
      assert Holds(ItemRows, View());
      var a;
      a, mid, ref := InsertDerived(i, role, key, source, content);
      return Ok(a), true, mid, ref;
    }

    // -------------------------------------------------------------- requests

    // SELECT ... WHERE collection_id = c ORDER BY created_at DESC
    method LatestJob(c: Id) returns (latest: Option<Id>)
      ensures latest.None? <==> forall j :: j in db.jobs ==> db.jobs[j].collection != c
      ensures latest.Some? ==> IsNewest(db.jobs, latest.value, c)
    {
      latest := None;
      var todo := db.jobs.Keys;
      while todo != {}
        invariant todo <= db.jobs.Keys
        invariant latest.Some? ==> latest.value in db.jobs && db.jobs[latest.value].collection == c
        invariant forall k :: k in db.jobs && k !in todo && db.jobs[k].collection == c ==>
          latest.Some? && db.jobs[k].createdAt <= db.jobs[latest.value].createdAt
        decreases todo
      {
        var k :| k in todo;
        if db.jobs[k].collection == c && (latest.None? || db.jobs[latest.value].createdAt < db.jobs[k].createdAt) {
          latest := Some(k);
        }
        todo := todo - {k};
      }
    }

    // The row of a new job, whose collection is DELETING from now on.
    method InsertJob(c: Id, createdAt: int) returns (j: Id)
      requires Valid() && CanCreateJob(db, c)
      modifies this
      ensures Valid() && j !in old(spent) && View() == CreateJob(old(View()), c, j, createdAt)
      ensures j in db.jobs && db.jobs[j].collection == c
    {
      ghost var before := View();
      j := NewId();
      SpentRows(before, j);
      CreateJobKeeps(before, c, j, createdAt);
      db := db.(jobs := db.jobs[j := NewJob(db, c, createdAt)],
                collections := db.collections[c := db.collections[c].(status := Deleting)]);
      assert View() == CreateJob(before, c, j, createdAt);
    }

    // create_deletion_job
    method CreateDeletionJob(c: Id, createdAt: int) returns (r: Result<Id, Error>, created: bool)
      requires Valid()
      modifies this
      ensures Valid()
      ensures created <==> old(CanCreateJob(db, c))
      ensures created ==> r.Ok? && r.value !in old(spent) && View() == CreateJob(old(View()), c, r.value, createdAt)
      ensures created ==> JobCreated(old(db), c, r.value, createdAt, db)
      ensures !created ==> View() == old(View())
      ensures r.Ok? ==> r.value in db.jobs && db.jobs[r.value].collection == c
      ensures r.Err? ==> r.error == (if c !in db.collections then CollectionNotFound
                                      else if db.collections[c].status == Deleting then AlreadyDeleting else ProcessingActive)
      ensures r.Ok? && !created && HasActiveJob(db.jobs, c) ==> Active(db.jobs[r.value].status)
      ensures r.Ok? && !created && !HasActiveJob(db.jobs, c) ==> IsNewest(db.jobs, r.value, c)
      ensures r.Err? && r.error == AlreadyDeleting ==> forall j :: j in db.jobs ==> db.jobs[j].collection != c
    {
      if c !in db.collections {
        return Err(CollectionNotFound), false;
      }
      if j :| j in db.jobs && Active(db.jobs[j].status) && db.jobs[j].collection == c {
        return Ok(j), false;
      }
      if db.collections[c].status == Deleting {
        var failed := LatestJob(c);
        if failed.Some? {
          return Ok(failed.value), false;
        }
        return Err(AlreadyDeleting), false;
      }
      if r :| r in db.runs && db.runs[r].collection == c && db.runs[r].active {
        return Err(ProcessingActive), false;
      }
      ghost var before := View();
      var j := InsertJob(c, createdAt);
      CreatedRow(before, c, j, createdAt);
      return Ok(j), true;
    }

    // retry_deletion_job
    method RetryDeletionJob(j: Id) returns (error: Option<Error>)
      requires Valid()
      modifies this`db
      ensures Valid() && View() == Retry(old(View()), j)
      ensures error == old(
        if j !in db.jobs then Some(JobNotFound)
        else if db.jobs[j].status != Failed then Some(NotFailed)
        else if ActiveElsewhere(db.jobs, j, db.jobs[j].collection) then Some(ActiveJobExists)
        else None)
      ensures error == None ==> j in old(db.jobs) && Requeued(old(db), j, db)
      ensures error.Some? ==> db == old(db)
    {
      RetryKeeps(View(), j);
      if j !in db.jobs {
        return Some(JobNotFound);
      }
      if db.jobs[j].status != Failed {
        return Some(NotFailed);
      }
      var job := db.jobs[j];
      if k :| k in db.jobs && k != j && Active(db.jobs[k].status) && db.jobs[k].collection == job.collection {
        return Some(ActiveJobExists);
      }
      db := db.(jobs := db.jobs[j := job.(status := Queued, attempts := job.attempts + 1)],
                collections := SetStatus(db.collections, job.collection, Deleting));
      return None;
    }

    // -------------------------------------------------------------- steps of the workflow

    // validate
    method ValidateDeletion(j: Id, blocked: bool) returns (error: Option<Error>)
      requires Valid()
      modifies this`db
      ensures Valid() && View() == Validate(old(View()), j)
      ensures error == old(
        if j !in db.jobs then Some(JobNotFound)
        else if db.jobs[j].status == Completed then None
        else if ActiveElsewhere(db.jobs, j, db.jobs[j].collection) then Some(ActiveJobExists)
        else if blocked then Some(Blocked) else None)
      ensures error == Some(Blocked) || (error == None && old(db).jobs[j].status != Completed) ==> OnlyStatus(old(db), j, Validating, db)
      ensures !(error == Some(Blocked) || (error == None && old(db).jobs[j].status != Completed)) ==> db == old(db)
    {
      AdvanceKeeps(View(), j, Validating);
      if j !in db.jobs {
        return Some(JobNotFound);
      }
      if db.jobs[j].status == Completed {
        return None;
      }
      if k :| k in db.jobs && k != j && Active(db.jobs[k].status) && db.jobs[k].collection == db.jobs[j].collection {
        return Some(ActiveJobExists);
      }
      db := db.(jobs := db.jobs[j := db.jobs[j].(status := Validating)]);
      return if blocked then Some(Blocked) else None;
    }

    // prepare_deletion
    method PrepareDeletion(j: Id) returns (error: Option<Error>)
      requires Valid()
      modifies this`db
      ensures Valid() && View() == Prepare(old(View()), j)
      ensures error == old(
        if j !in db.jobs then Some(JobNotFound)
        else if db.jobs[j].status == Completed then None
        else if ActiveElsewhere(db.jobs, j, db.jobs[j].collection) then Some(ActiveJobExists)
        else None)
      ensures error == None && old(db).jobs[j].status != Completed ==> Prepared(old(db), j, db)
      ensures error.Some? || old(db).jobs[j].status == Completed ==> db == old(db)
    {
      PrepareKeeps(View(), j);
      if j !in db.jobs {
        return Some(JobNotFound);
      }
      if db.jobs[j].status == Completed {
        return None;
      }
      if k :| k in db.jobs && k != j && Active(db.jobs[k].status) && db.jobs[k].collection == db.jobs[j].collection {
        return Some(ActiveJobExists);
      }
      db := db.(items := Unparented(db.items, db.jobs[j].collection), jobs := db.jobs[j := db.jobs[j].(status := DeletingRows)]);
      return None;
    }

    // The statements of delete_item_batch; the foreign key of the parents refuses some batches.
    method DeleteSelectedItems(j: Id, itemIds: set<Id>) returns (ok: bool)
      requires Valid() && j in db.jobs && itemIds <= ItemsOf(db.items, db.jobs[j].collection)
      modifies this`db
      ensures Valid() && ok == !old(ParentHeld(db.items, itemIds))
      ensures View() == if ok then ItemBatch(old(View()), j, itemIds) else old(View())
      ensures j in db.jobs && db.jobs[j].collection == old(db.jobs[j].collection)
    {
      if i :| i in db.items && i !in itemIds && db.items[i].parent.Some? && db.items[i].parent.value in itemIds {
        return false;
      }
      ItemBatchKeeps(View(), j, itemIds);
      ItemBatchJobs(View(), j, itemIds);
      db := DeleteItemRows(db, j, itemIds, View());
      return true;
    }

    // delete_item_batch
    method DeleteItemBatch(j: Id, batchSize: nat) returns (r: Result<Batch, Error>, ghost batch: set<Id>)
      requires Valid()
      modifies this`db
      ensures Valid()
      ensures r.Err? ==> View() == old(View())
      ensures j !in old(db.jobs) ==> r == Err(JobNotFound)
      ensures j in old(db.jobs) && r.Err? ==> r.error == ParentReferenced && ParentHeld(db.items, batch)
      ensures j in old(db.jobs) ==> batch <= old(ItemsOf(db.items, db.jobs[j].collection))
      ensures r.Ok? ==> old(CanDeleteItems(db, j, batch)) && View() == ItemBatch(old(View()), j, batch)
      ensures r.Ok? ==> r.value.deleted == |batch| == old(var n := |ItemsOf(db.items, db.jobs[j].collection)|; if batchSize < n then batchSize else n)
      ensures r.Ok? ==> j in db.jobs && r.value.hasMore == (|batch| != 0 && ItemsOf(db.items, db.jobs[j].collection) != {})
    {
      batch := {};
      if j !in db.jobs {
        return Err(JobNotFound), batch;
      }
      var c := db.jobs[j].collection;
      var itemIds := FirstIds(ItemsOf(db.items, c), batchSize);
      batch := itemIds;
      if itemIds == {} {
        NothingInBatch(View(), j);
        return Ok(Batch(0, false)), batch;
      }
      var ok := DeleteSelectedItems(j, itemIds);
      if !ok {
        return Err(ParentReferenced), batch;
      }
      return Ok(Batch(|itemIds|, ItemsOf(db.items, c) != {})), batch;
    }

    // delete_collection_record
    method DeleteCollectionRecord(j: Id) returns (r: Result<nat, Error>)
      requires Valid()
      modifies this`db
      ensures Valid() && View() == Record(old(View()), j)
      ensures r.Err? <==> old(RecordError(db, j)).Some?
      ensures r.Err? ==> Some(r.error) == old(RecordError(db, j))
      ensures r.Ok? ==> r.value == old(if db.jobs[j].collection in db.collections then |ContainersOf(db.collectionLinks, db.jobs[j].collection)| else 0)
    {
      ghost var before := View();
      RecordKeeps(before, j);
      if j !in db.jobs {
        return Err(JobNotFound);
      }
      var c := db.jobs[j].collection;
      if c in db.collections && ItemsOf(db.items, c) != {} {
        return Err(ItemsRemain);
      }
      if k :| k in db.jobs && k != j && Active(db.jobs[k].status) && db.jobs[k].collection == c {
        return Err(ActiveJobExists);
      }
      RecordSteps(before, j);
      if c !in db.collections {
        db := db.(jobs := db.jobs[j := db.jobs[j].(status := DeletingBlobs)]);
        return Ok(0);
      }
      var session, count := DeleteRecordRows(db, j, c, before);
      db := session.(jobs := session.jobs[j := session.jobs[j].(status := DeletingBlobs)]);
      return Ok(count);
    }

    // The loop of delete_blob_batch: the objects are deleted at once, the marked rows wait for the commit.
    method DeleteObjects(blobs: set<Id>) returns (rows: map<Id, Doomed>)
      requires blobs <= db.doomed.Keys
      modifies this`objects
      ensures objects == ObjectsWithout(old(objects), db.doomed, blobs)
      ensures rows == Marked(db.doomed, blobs)
    {
      rows := db.doomed;
      var todo := blobs;
      NoneDeleted(objects, rows);
      assert blobs - todo == {};
      while todo != {}
        invariant todo <= blobs && rows.Keys == db.doomed.Keys
        invariant forall b :: b in rows ==> rows[b].place == db.doomed[b].place
        invariant objects == ObjectsWithout(old(objects), db.doomed, blobs - todo)
        invariant rows == Marked(db.doomed, blobs - todo)
        decreases todo
      {
        var b :| b in todo;
        DeleteOneMore(old(objects), db.doomed, blobs - todo, b);
        assert blobs - (todo - {b}) == (blobs - todo) + {b};
        objects := Without(objects, rows[b].place);
        rows := rows[b := rows[b].(deleted := true)];
        todo := todo - {b};
      }
      assert blobs - {} == blobs;
    }

    // delete_blob_batch
    method DeleteBlobBatch(j: Id, batchSize: nat) returns (r: Result<Batch, Error>, ghost batch: set<Id>)
      requires Valid()
      modifies this`db, this`objects
      ensures Valid()
      ensures r.Err? <==> j !in old(db.jobs)
      ensures r.Err? ==> r.error == JobNotFound && View() == old(View())
      ensures r.Ok? ==> batch <= old(PendingOf(db.doomed, j)) && View() == BlobBatch(old(View()), j, batch)
      ensures r.Ok? ==> r.value.deleted == |batch| == old(var n := |PendingOf(db.doomed, j)|; if batchSize < n then batchSize else n)
      ensures r.Ok? ==> r.value.hasMore == (PendingOf(db.doomed, j) != {})
    {
      batch := {};
      if j !in db.jobs {
        return Err(JobNotFound), batch;
      }
      var blobs := FirstIds(PendingOf(db.doomed, j), batchSize);
      batch := blobs;
      ghost var before := View();
      BlobBatchKeeps(before, j, blobs);
      var rows := DeleteObjects(blobs);
      var job := db.jobs[j];
      db := db.(doomed := rows, jobs := db.jobs[j := job.(deletedBlobs := job.deletedBlobs + |blobs|)]);
      return Ok(Batch(|blobs|, PendingOf(db.doomed, j) != {})), batch;
    }

    // complete_deletion
    method CompleteDeletion(j: Id) returns (error: Option<Error>)
      requires Valid()
      modifies this`db
      ensures Valid() && View() == Complete(old(View()), j)
      ensures error == old(if j !in db.jobs then Some(JobNotFound) else if PendingOf(db.doomed, j) != {} then Some(BlobsRemain) else None)
    {
      CompleteKeeps(View(), j);
      if j !in db.jobs {
        return Some(JobNotFound);
      }
      if PendingOf(db.doomed, j) != {} {
        return Some(BlobsRemain);
      }
      db := db.(doomed := Keep(db.doomed, RowsOf(db.doomed, j)), jobs := db.jobs[j := db.jobs[j].(status := Completed)]);
      return None;
    }

    // fail_deletion
    method FailDeletion(j: Id)
      requires Valid()
      modifies this`db
      ensures Valid() && View() == Fail(old(View()), j)
      ensures j !in old(db.jobs) ==> db == old(db)
      ensures j in old(db.jobs) ==> FailedAs(old(db), j, db)
    {
      FailKeeps(View(), j);
      if j !in db.jobs {
        return;
      }
      var job := db.jobs[j];
      if job.deletedItems == 0 && job.deletedArtifacts == 0 && job.blobCount == 0 {
        db := db.(collections := SetStatus(db.collections, job.collection, job.previousStatus));
      }
      db := db.(jobs := db.jobs[j := job.(status := Failed)]);
    }

    // -------------------------------------------------------------- the workflow

    // The loop over the item batches ends with no item of the collection left.
    method DeleteItems(j: Id, ghost course: Course)
      requires On(View(), j, course) && NoParents(db.items, db.jobs[j].collection)
      modifies this`db
      ensures On(View(), j, course) && ItemsOf(db.items, db.jobs[j].collection) == {}
    {
      var hasMore := true;
      while hasMore
        invariant On(View(), j, course) && NoParents(db.items, db.jobs[j].collection)
        invariant !hasMore ==> ItemsOf(db.items, db.jobs[j].collection) == {}
        decreases |ItemsOf(db.items, db.jobs[j].collection)|, hasMore
      {
        ghost var before := View();
        var r, batch := DeleteItemBatch(j, DATABASE_BATCH_SIZE);
        BatchOfItems(before, j, course, batch, r, View());
        hasMore := r.value.hasMore;
      }
    }

    // The loop over the blob batches ends with no row PENDING.
    method DeleteBlobs(j: Id, ghost course: Course)
      requires On(View(), j, course)
      modifies this`db, this`objects
      ensures On(View(), j, course) && PendingOf(db.doomed, j) == {}
      ensures db.jobs[j].collection == old(db.jobs[j].collection) && db.collections == old(db.collections)
    {
      var hasMore := true;
      while hasMore
        invariant On(View(), j, course)
        invariant db.jobs[j].collection == old(db.jobs[j].collection) && db.collections == old(db.collections)
        invariant !hasMore ==> PendingOf(db.doomed, j) == {}
        decreases |PendingOf(db.doomed, j)|, hasMore
      {
        ghost var before := View();
        var r, batch := DeleteBlobBatch(j, BLOB_BATCH_SIZE);
        BlobBatchStays(before, j, batch, course);
        ShrinkBy(PendingOf(before.db.doomed, j), batch);
        hasMore := r.value.hasMore;
      }
    }

    // collection_deletion, run or resumed at a point where the job is active.
    method RunDeletion(j: Id, blocked: bool) returns (error: Option<Error>)
      requires Valid() && j in db.jobs && Active(db.jobs[j].status)
      modifies this`db, this`objects
      ensures Valid()
      ensures !blocked ==> error == None && Arrived(View(), j, old(CourseOf(View(), j)))
      ensures blocked ==> error == Some(Blocked) && View() == Fail(Validate(old(View()), j), j) && FailedAs(old(db), j, db)
    {
      ghost var course, before := CourseOf(View(), j), db;
      Alone(View(), j, course);
      ValidateStays(View(), j, course);
      error := ValidateDeletion(j, blocked);
      if error.Some? {
        ghost var validated := db;
        FailDeletion(j);
        FailedAfterStatus(before, j, Validating, validated, db);
        return;
      }
      PrepareStays(View(), j, course);
      Alone(View(), j, course);
      error := PrepareDeletion(j);
      DeleteItems(j, course);
      RecordStays(View(), j, course);
      var r := DeleteCollectionRecord(j);
      DeleteBlobs(j, course);
      CompleteArrives(View(), j, course);
      error := CompleteDeletion(j);
    }

    // The request for a deletion and the workflow it enqueues, unless the queue refuses it.
    method DeleteCollection(c: Id, createdAt: int, queued: bool, blocked: bool) returns (r: Result<Id, Error>, created: bool)
      requires Valid()
      modifies this
      ensures Valid() && created == old(CanCreateJob(db, c))
      ensures !created ==> View() == old(View())
      ensures created ==> r.Ok? && r.value !in old(spent) && r.value in db.jobs
      ensures created && (!queued || blocked) ==>
        db.jobs[r.value].status == Failed && db == old(db).(jobs := old(db).jobs[r.value := db.jobs[r.value]])
      ensures created && queued && !blocked ==> CollectionDeleted(old(View()), c, r.value, View())
    {
      ghost var before := View();
      r, created := CreateDeletionJob(c, createdAt);
      if created {
        var j := r.value;
        ghost var start := db;
        if !queued {
          FailDeletion(j);
          FailedAfterCreation(before.db, c, j, createdAt, start, db);
          return;
        }
        var error := RunDeletion(j, blocked);
        if blocked {
          FailedAfterCreation(before.db, c, j, createdAt, start, db);
        } else {
          DeletedSinceCreation(before, c, j, createdAt, View());
        }
      }
    }

    // A failed job is retried.  `first` is any state that the job's own steps led from, through whatever failures
    // and retries: the job arrives where it was heading then.
    method ResumeDeletion(j: Id, ghost first: State, ghost steps: seq<Step>) returns (error: Option<Error>)
      requires Valid() && Consistent(first) && j in first.db.jobs && OwnSteps(steps, j) && View() == After(first, steps)
      modifies this`db, this`objects
      ensures Valid()
      ensures error == old(if j in db.jobs && db.jobs[j].status != Failed then Some(NotFailed)
                           else if j in db.jobs && ActiveElsewhere(db.jobs, j, db.jobs[j].collection) then Some(ActiveJobExists) else None)
      ensures error.Some? ==> View() == old(View())
      ensures error == None ==> Arrived(View(), j, CourseOf(first, j))
    {
      OwnStepsKeepCourse(first, steps, j);
      RetryKeepsCourse(View(), j);
      error := RetryDeletionJob(j);
      if error == None {
        error := RunDeletion(j, false);
      }
    }
  }

  lemma NoItems(s: State, j: Id)
    requires j in s.db.jobs
    ensures WithoutItems(s, {}) == s && Counted(s, j, 0, 0) == s
  {
    KeepNone(s.db.items);
    assert (set p | p in s.db.selected && p.1 !in {}) == s.db.selected;
    assert s.db.jobs[j := s.db.jobs[j].(deletedItems := s.db.jobs[j].deletedItems + 0)] == s.db.jobs;
  }

  lemma NothingInBatch(s: State, j: Id)
    requires j in s.db.jobs
    ensures CanDeleteItems(s.db, j, {}) && ItemBatch(s, j, {}) == s
  {
    assert ArtifactsOfItems(s.db.itemLinks, {}) == {};
    NothingToRemove(s.db, j);
    assert Removed(s, j, {}) == s;
    NoItems(s, j);
  }

  // One turn of the item loop: it does not fail, stays on course and leaves fewer items.
  lemma BatchOfItems(s: State, j: Id, course: Course, batch: set<Id>, r: Result<Batch, Error>, s': State)
    requires On(s, j, course) && NoParents(s.db.items, s.db.jobs[j].collection)
    requires batch <= ItemsOf(s.db.items, s.db.jobs[j].collection)
    requires r.Err? ==> ParentHeld(s.db.items, batch)
    requires r.Ok? ==> CanDeleteItems(s.db, j, batch) && s' == ItemBatch(s, j, batch)
    ensures r.Ok? && On(s', j, course) && s'.db.jobs[j].collection == s.db.jobs[j].collection
    ensures NoParents(s'.db.items, s.db.jobs[j].collection)
    ensures ItemsOf(s'.db.items, s.db.jobs[j].collection) == ItemsOf(s.db.items, s.db.jobs[j].collection) - batch
    ensures |ItemsOf(s'.db.items, s.db.jobs[j].collection)| == |ItemsOf(s.db.items, s.db.jobs[j].collection)| - |batch|
  {
    var c := s.db.jobs[j].collection;
    ParentsInside(s, c, batch);
    ItemBatchStays(s, j, batch, course);
    FewerItems(s.db.items, batch, c);
    ShrinkBy(ItemsOf(s.db.items, c), batch);
  }
}
