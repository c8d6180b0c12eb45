# Verified model of the Priv-View core

Priv-View keeps collections of evidence files for legal matters, derives text, chunks and embeddings from
them, records metadata as an event log, and lets agents act after approval. This project models the parts
whose correctness spans several functions or a whole run, and proves what they promise.

`dafny verify dfyconfig.toml` checks everything (Dafny 4.11).

## What is modelled

**Collection deletion over shared blobs** (`ArtifactState`, `DeletionSpec`, `DeletionSafety`, `DeletionOutcome`,
`DeletionCounts`, `DeletionCourse`, `DeletionReopening`, `ArtifactService`). The database is a value of maps and sets, the object
store a map from bucket and key to bytes. Every transaction is a function from one committed state to the next;
the storage deletes of an interrupted blob batch are a step of their own, because no rollback undoes them. The
class `Service` holds rows and objects and changes them as the Python code does; each of its methods commits
exactly the specified step. `Consistent` is what holds in every state that any interleaving of uploads, derived
stores, deletion steps, failures, retries and crashes reaches. `Outlook` is everything that a deletion job will
leave behind. No step of the job changes it or the totals it will count, failing and retrying included
(`DeletionCourse.OwnStepsKeepCourse`), so a job that is interrupted and resumed ends where it was heading at first
(`ArtifactService.Service.ResumeDeletion`). Once the record step has succeeded nothing of the collection exists
again, whatever other callers do (`DeletionCourse.RecordIsFinal`). `DeletionReopening` says what a failed job does with
its collection.

**The metadata log** (`Metadata`, `MetadataResolution`, `MetadataLaws`, `MetadataBatch`, `MetadataStore`,
`MetadataTables`). `Resolve` follows `resolve_field` on lists of events. `MetadataResolution` gives a second
definition on the set of events and shows that the lists are those it describes; the laws of rejection,
retraction, order and replacement are proved there. `Tables` is the log with the rows projected from it.

**Chunking** (`Chunking`), for any sorted list of boundaries; **the rate limiter** (`RateLimiter`), in real
arithmetic; **batch preparation, joining and submission** (`VoyageBatch`, `VoyageJoin`, `VoyageRoundTrip`,
`VoyageSubmission`); **embedding of documents** on the synchronous and the hosted path (`MatterEmbeddings`,
`HostedEmbeddings`); **agent approval** (`AgentApproval`, `AgentService`); **the forwarding-envelope
unwrappers** (`ForwardingEnvelopes`).

Hashes are taken as injective (a digest is its content), canonical JSON texts are represented by their rank,
an embedding is an arbitrary function of a text, regular expressions are arbitrary predicates on lines, and
clocks, generated ids, the provider and failures are parameters.

## Results that differ from what one might expect

- A chunk can consist of carried overlap only: `Chunking.CarriedUnitIsEmittedAgain` gives a text. `Chunking.RunShape`
  says exactly when: the next unit does not fit behind what was carried over.
- An assertion still supersedes after it was rejected. A rejected assertion therefore leaves the candidates and
  pending events as they are exactly if the events it supersedes are dispensable: none of them is a candidate or
  pending, and they do not alone hide a standing value (`MetadataLaws.RejectionUndoesExactly`). One that supersedes
  nothing always meets this; `MetadataLaws.RejectedReplacementRevivesNothing` shows a field that does not.
- Reading the head of the limiter's deque is safe exactly when both quotas are at least one
  (`RateLimiter.HeadReadIsSafe`).
- A failure hands the collection back as long as nothing of it is deleted. A batch that still runs for the failed job
  then deletes from a collection that is not DELETING, and no later failure repairs that
  (`DeletionReopening.LateBatchEmptiesReopened`); this can happen when a workflow is queued although queueing it
  reported an error. Exactly such a batch breaks the rule that a half-deleted collection is DELETING
  (`DeletionReopening.HalfDeletedStep`), and none occurs while a FAILED job is only retried
  (`DeletionReopening.FailureInOrder`).
- `blob_count` counts the rows of a job only until `complete_deletion` drops them
  (`DeletionCounts.CompleteDropsRows`); a job that fails after completing keeps the count without rows.

## Model

| member | source | states |
|---|---|---|
| ArtifactService.LeastId | artifact_service/deletion.py:227-234 | ORDER BY id: the least id of a set |
| ArtifactService.FirstIds | artifact_service/deletion.py:227-234 | the limited query returns the first ids in order, as many as the limit or the set allows |
| ArtifactService.ScheduleBlobs | artifact_service/deletion.py:192-214 | exactly the blobs that no remaining artifact refers to are unlinked and scheduled, each once, and counted |
| ArtifactService.DeleteArtifactsAndScheduleBlobs | artifact_service/deletion.py:169-215 | the artifacts go with their links and lineage, and their orphaned blobs become PENDING rows of the job |
| ArtifactService.Service.constructor | artifact_service/models.py:303-320 | an empty service is consistent |
| ArtifactService.Service.GetOrCreateBlob | artifact_service/service.py:63-93 | a row with the same bytes is reused and nothing changes; otherwise the bytes are put under a key never used before |
| ArtifactService.Service.CheckUpload | artifact_service/api.py:767-796 | the first of the four errors of what the request refers to |
| ArtifactService.Service.InsertItem | artifact_service/api.py:816-899 | the item, its artifact and link, and a new blob where the bytes are not stored yet; every new row written out |
| ArtifactService.Service.UploadItem | artifact_service/api.py:758-905 | an item is created exactly when the collection is open, the references are valid and the source id is free; it has the given parent, a native artifact with the content, and lineage from that artifact to the container; an item with the same content is returned; every error, and no other outcome changes anything |
| ArtifactService.ItemRowsAdded | artifact_service/api.py:816-899 | the rows that an upload adds: the item with its parent, its native artifact, lineage to the container, a blob for its tenant |
| ArtifactService.Service.StoreDerivedArtifact | artifact_service/derived.py:37-114 | find-or-create by item, role and key: created exactly when the key is free and the source belongs to the item, with the content and with lineage from the new artifact to its source |
| ArtifactService.ArtifactRowsDerived | artifact_service/derived.py:74-114 | the rows that a derived store adds: the artifact, its link, lineage to the source, a blob for its tenant |
| ArtifactService.Service.LatestJob | artifact_service/deletion.py:64-68 | the newest job of a collection, if it has one |
| ArtifactService.Service.CreateDeletionJob | artifact_service/deletion.py:43-124 | a job is created exactly when the collection exists, has no active job, is not DELETING and is not processed; its row is QUEUED with the status to hand back and the numbers of items and artifacts, and the collection is DELETING; an existing active job is returned, or the newest one of a DELETING collection; all errors |
| ArtifactService.CreatedRow | artifact_service/deletion.py:84-123 | the row of a new job: the previous status, attempt 1, the number of items, and of all artifacts of the collection |
| ArtifactService.Service.RetryDeletionJob | artifact_service/deletion.py:127-144 | a failed job becomes QUEUED with one more attempt and its collection, if it is still there, DELETING; nothing else changes; the index refuses a second active job |
| ArtifactService.Service.ValidateDeletion | app/workflows/collection_deletion.py:26-40 | VALIDATING, and nothing else, is committed before the blockers are looked at |
| ArtifactService.Service.PrepareDeletion | artifact_service/deletion.py:147-166 | the job is DELETING_DATABASE_ROWS and exactly the items of its collection lose their parents |
| ArtifactService.Service.DeleteItemBatch | artifact_service/deletion.py:218-278 | one batch of the first items goes with everything that hangs on them, or nothing changes because a parent link holds one of them; has_more is exact |
| ArtifactService.Service.DeleteCollectionRecord | artifact_service/deletion.py:281-322 | refused while items remain; otherwise the collection, its selections, runs and containers are gone |
| ArtifactService.Service.DeleteObjects | artifact_service/deletion.py:346-348 | the objects of the batch are deleted one by one and their rows marked |
| ArtifactService.Service.DeleteBlobBatch | artifact_service/deletion.py:325-359 | a batch of PENDING rows loses its objects and becomes DELETED; has_more is exact |
| ArtifactService.Service.CompleteDeletion | artifact_service/deletion.py:362-385 | refused while rows are PENDING; otherwise COMPLETED without rows |
| ArtifactService.Service.FailDeletion | artifact_service/deletion.py:388-404 | FAILED; the collection gets back the status it had before exactly if it is still there and no item, artifact or blob was deleted or scheduled; nothing else changes |
| ArtifactService.Service.DeleteItems | app/workflows/collection_deletion.py:85-88 | the item loop terminates, never fails, and leaves no item of the collection |
| ArtifactService.Service.DeleteBlobs | app/workflows/collection_deletion.py:90-93 | the blob loop terminates and leaves no row PENDING |
| ArtifactService.Service.RunDeletion | app/workflows/collection_deletion.py:79-99 | from every state where the job is active the workflow ends COMPLETED, with exactly the outlook left and everything counted; when blocked it ends FAILED and hands the collection back exactly if nothing was deleted |
| ArtifactService.Service.DeleteCollection | app/routers/collection_deletions.py:84-119 | request, queue and workflow: a job that cannot be queued or is blocked leaves every row but its own as it was, whatever the status of the collection; one that runs leaves nothing of the collection, everything else as before, and reports as many items and artifacts as there were |
| ArtifactService.Service.ResumeDeletion | artifact_service/deletion.py:127-144 | a failed job that is retried arrives where it was heading before its first failure, however often its own steps were interrupted, failed and retried |
| DeletionSafety.RunKeeps | artifact_service/deletion.py:43-404 | every run of the service keeps the tables and the object store consistent |
| DeletionSafety.StepKeeps | artifact_service/deletion.py:43-404 | so does every single step, uploads, crashes and retries included |
| DeletionSafety.LiveBlobsAreStored | artifact_service/deletion.py:192-213 | in every run the object of every live blob row is stored with its bytes |
| DeletionSafety.OrphansAreUnreferenced | artifact_service/deletion.py:193-213 | a blob is scheduled exactly when no artifact refers to it any more |
| DeletionSafety.BlobFate | artifact_service/deletion.py:169-215 | a live blob stays live or is scheduled; a scheduled one never comes back |
| DeletionSafety.LiveOrRetired | artifact_service/service.py:80-92 | over any run a key once used is live with its bytes or retired for good, so bytes stored again get a fresh key |
| DeletionSafety.OneActiveJob | artifact_service/models.py:81-91 | in every run a collection has at most one active job |
| DeletionSafety.PendingRowsAreCounted | artifact_service/deletion.py:346-349 | in every run, also after completion, blob_count less deleted_blob_count is the number of PENDING rows |
| DeletionSafety.RemovalKeeps | artifact_service/deletion.py:169-215 | deleting artifacts keeps all constraints and the stored objects of live blobs |
| DeletionSafety.ItemBatchKeeps | artifact_service/deletion.py:218-278 | an item batch keeps consistency |
| DeletionSafety.RecordKeeps | artifact_service/deletion.py:281-322 | the record step keeps consistency |
| DeletionSafety.ObjectsGoneKeeps | artifact_service/deletion.py:346-350 | a worker that dies between the storage deletes and the commit leaves a consistent state |
| DeletionSafety.BlobBatchKeeps | artifact_service/deletion.py:325-359 | a blob batch keeps consistency |
| DeletionSafety.AddItemKeeps | artifact_service/api.py:816-899 | an upload keeps consistency |
| DeletionSafety.AddContainerKeeps | artifact_service/api.py:727-748 | an uploaded source container keeps consistency |
| DeletionSafety.AddDerivedKeeps | artifact_service/derived.py:74-114 | a derived store keeps consistency |
| DeletionOutcome.PrepareKeepsOutlook | artifact_service/deletion.py:147-166 | preparing does not change what the deletion will leave |
| DeletionOutcome.ItemBatchKeepsOutlook | artifact_service/deletion.py:218-278 | nor does an item batch |
| DeletionOutcome.RecordKeepsOutlook | artifact_service/deletion.py:281-322 | nor does the record step |
| DeletionOutcome.ObjectsGoneKeepOutlook | artifact_service/deletion.py:346-348 | nor do storage deletes whose commit is lost |
| DeletionOutcome.BlobBatchKeepsOutlook | artifact_service/deletion.py:325-359 | nor does a blob batch |
| DeletionOutcome.CompleteKeepsOutlook | artifact_service/deletion.py:362-385 | nor does completing |
| DeletionOutcome.OutlookReached | artifact_service/deletion.py:362-385 | once the collection and the job's rows are gone the state is its own outlook |
| DeletionCounts.ItemBatchConserves | artifact_service/deletion.py:267-270 | deleted items plus remaining items, and deleted artifacts plus remaining artifacts, stay constant |
| DeletionCounts.RecordConserves | artifact_service/deletion.py:296-319 | the record step conserves both sums |
| DeletionCounts.CountsMatchRows | artifact_service/deletion.py:214-214 | in every run until the job completes, blob_count is its rows and deleted_blob_count its DELETED rows |
| DeletionCounts.StepKeepsSurplus | artifact_service/deletion.py:346-350 | every step but the job's own completion keeps blob_count in line with the rows |
| DeletionCounts.CompleteDropsRows | artifact_service/deletion.py:376-384 | after completing the two agree exactly if no blob was scheduled |
| DeletionCourse.FailKeepsCourse | artifact_service/deletion.py:388-404 | failing and reopening change neither what the job will leave nor what it will have counted |
| DeletionCourse.RetryKeepsCourse | artifact_service/deletion.py:127-144 | nor does a retry |
| DeletionCourse.OwnStepKeepsCourse | artifact_service/deletion.py:127-404 | nor does any other step of the job, committed, refused or lost after its storage deletes |
| DeletionCourse.OwnStepsKeepCourse | artifact_service/deletion.py:127-404 | after any sequence of the job's own steps it heads for the same end |
| DeletionCourse.ArrivesAsHeaded | app/workflows/collection_deletion.py:79-99 | a workflow run after any of the job's own steps arrives where the job was heading before them |
| DeletionCourse.RecordIsFinal | artifact_service/deletion.py:296-321 | once the record step has succeeded, no row, item, artifact, link, selection or run of the collection exists in any continuation |
| DeletionCourse.DeletionIsExact | app/workflows/collection_deletion.py:79-95 | at COMPLETED nothing of the collection is left, exactly the objects only it needed are gone, and all other rows, links, lineage, selections, runs and objects are as before |
| DeletionCourse.ItemBatchStays | artifact_service/deletion.py:218-278 | an item batch leaves outlook and totals as they are |
| DeletionCourse.RecordStays | artifact_service/deletion.py:281-322 | without items left the record step succeeds and stays on course |
| DeletionCourse.BlobBatchStays | artifact_service/deletion.py:325-359 | a blob batch stays on course and takes its rows out of the PENDING ones |
| DeletionCourse.CompleteArrives | artifact_service/deletion.py:362-385 | completing reaches the outlook with every item, artifact and blob counted |
| DeletionReopening.Created | artifact_service/deletion.py:103-123 | a new job keeps the status of its collection, which is DELETING from now on |
| DeletionReopening.SinceOwnSteps | artifact_service/deletion.py:127-404 | from its creation on a job keeps the previous status, only its own collection changes, no row of it is new, and what is counted plus what is left is what there was |
| DeletionReopening.UntouchedMeansAll | artifact_service/deletion.py:395-400 | the three counters are 0 exactly while every item and artifact of the collection is still there |
| DeletionReopening.HalfDeletedStep | artifact_service/deletion.py:218-278 | a step of the job keeps "what is half-deleted is DELETING" if and only if it is not a batch that deletes from a collection that is not DELETING |
| DeletionReopening.FailureHandsBack | artifact_service/deletion.py:388-404 | a failure after any of the job's own steps, with every item and artifact still there, leaves all collections as they were before the job was created |
| DeletionReopening.FailureKeepsDeleting | artifact_service/deletion.py:388-404 | if an item or artifact is gone and the collection is still there, it is DELETING, provided no batch deleted from a collection that had been handed back |
| DeletionReopening.OrderIsEnough | app/routers/collection_deletions.py:167-180 | no such batch occurs while nothing is done with a FAILED job but retry it |
| DeletionReopening.FailureInOrder | artifact_service/deletion.py:388-404 | then a failure leaves the collection with its previous status exactly if nothing of it is gone, and DELETING otherwise |
| DeletionReopening.LateBatchEmptiesReopened | artifact_service/deletion.py:388-404 | for every collection with an item: a failure before anything is deleted and a batch after it leave the collection empty and with its previous status |
| Metadata.AmongInOrder | app/document_metadata.py:140-152 | a list comprehension keeps exactly the chosen events, in the order of the list |
| Metadata.Latest | app/document_metadata.py:154-154 | max by creation time and id: an event of the list that no other comes after |
| Metadata.SortedAscends | app/document_metadata.py:213-213 | sorting distinct events by creation time and id gives an ascending list |
| Metadata.RanksAscend | app/document_metadata.py:207-217 | the values of a list, ascending and each once |
| MetadataResolution.HiddenAre | app/document_metadata.py:153-161 | a value is invalidated by a clear exactly if some accepted CLEAR comes after it |
| MetadataResolution.CandidatesAre | app/document_metadata.py:170-197 | the candidates are exactly the accepted values that no accepted CLEAR comes after |
| MetadataResolution.PendingAre | app/document_metadata.py:185-189 | the pending events are exactly the standing, unconfirmed ones that are not overtaken |
| MetadataResolution.SecondClearFilterIsRedundant | app/document_metadata.py:190-197 | the second latest-clear filter removes nothing |
| MetadataResolution.ResolutionIgnoresOrder | app/document_metadata.py:170-267 | any permutation gives the same state, conflicts and pending set, and the same values unless PENDING |
| MetadataLaws.OneGroup | app/document_metadata.py:243-260 | there is one group of values exactly if all candidates carry the same value |
| MetadataLaws.SupportPartitionsCandidates | app/document_metadata.py:206-223 | values are distinct and ascending, every candidate supports exactly the value it carries, and nothing else supports any |
| MetadataLaws.SingleFieldStates | app/document_metadata.py:225-267 | when a single-valued field is VALUE or CONFLICTED, both ways, and how many values it shows |
| MetadataLaws.LatestCandidateWins | app/document_metadata.py:225-241 | LATEST_VALID shows the last candidate, HUMAN_PRECEDENCE the last human one if there is one |
| MetadataLaws.RetractionIsPermanent | app/document_metadata.py:131-197 | a rejected, removed or superseded event is not mentioned by the resolution of any longer log |
| MetadataLaws.RejectionUndoesExactly | app/document_metadata.py:131-167 | an assertion and its rejection leave candidates and pending events as they are exactly if what they supersede is dispensable |
| MetadataLaws.RejectionUndoes | app/document_metadata.py:131-197 | then the whole resolution is as without the pair, wherever it stands in the log |
| MetadataLaws.PlainRejectionUndoes | app/document_metadata.py:131-197 | in particular when the pair supersedes nothing, or only what is retracted anyway |
| MetadataLaws.RejectedReplacementRevivesNothing | app/document_metadata.py:138-138 | a rejected assertion still supersedes: the field is EMPTY although it had a value before |
| MetadataBatch.DeduplicatedInOrder | app/document_metadata.py:492-492 | dict.fromkeys keeps exactly the first occurrences, in order |
| MetadataBatch.DeduplicatedDistinct | app/document_metadata.py:492-492 | and no value twice |
| MetadataBatch.BatchExtends | app/document_metadata.py:480-516 | the batch consists of new, well-formed events of the field |
| MetadataBatch.MultipleShowsCandidates | app/document_metadata.py:206-223 | a multi-valued field shows the values of its candidates, each once and in ascending order |
| MetadataBatch.AppliedValuesAreShown | app/document_metadata.py:430-517 | replacing shows exactly the given values, adding the old ones and the given ones; nothing is pending |
| MetadataStore.GroupByValue | app/document_metadata.py:207-209 | the dictionary loop groups the candidates by value |
| MetadataStore.ResolveField | app/document_metadata.py:170-267 | the loops compute the resolution; a CONFLICTED field, and no other, names all its candidates and nothing else; a PENDING one shows each pending event as a value of its own |
| MetadataStore.ConflictsInOrder | app/document_metadata.py:261-267 | the conflicting ids are those of the candidates, in order of creation time and id |
| MetadataStore.RowsAreShaped | app/models.py:1124-1138 | every projected row meets the value-shape constraint and has the state of the resolution |
| MetadataStore.ProjectionKept | app/document_metadata.py:270-326 | projecting one field leaves the rows of all others in line with the log |
| MetadataStore.ValidRelationships | app/document_metadata.py:347-367 | an accepted event refers to events of its own document and field only |
| MetadataTables.Tables.ProjectField | app/document_metadata.py:270-326 | the rows of the field, and no others, are replaced: one row for each value with its columns, source and supporting events, or a single row without a value, all with the state and the pending and conflicting ids |
| MetadataTables.Tables.AddMetadataEvent | app/document_metadata.py:370-427 | an event is appended and the field projected exactly if the document, the field, the cardinality, the target and the superseded event allow it, all written out; otherwise the first error and no change |
| MetadataTables.AcceptedExactly | app/document_metadata.py:329-367 | what is accepted: SINGLE fields take SET and CLEAR, MULTIPLE fields ADD, REMOVE and CLEAR; REMOVE targets an ADD, CONFIRM and REJECT an assertion, SUPERSEDES a SET or CLEAR of the same field |
| MetadataTables.Tables.ApplyMetadataValues | app/document_metadata.py:430-517 | exactly when it succeeds, and every error; the CLEAR and the ADDs that are appended, field by field; the field is projected once; what it shows afterwards |
| MetadataTables.Tables.BuildBatch | app/document_metadata.py:469-514 | the events of the batch, CLEAR first and one ADD for each distinct value, or the first error |
| MetadataTables.SelectValueRows | app/document_metadata.py:546-555 | the rows in state VALUE in order of the ordinal: all rows of the field, or none |
| MetadataTables.Tables.CurrentMetadataValues | app/document_metadata.py:537-561 | a field is read back exactly if it is settled: a multi-valued one as the list of its values in their order, a single-valued one as its only value |
| MetadataTables.AppliedValuesAreRead | app/document_metadata.py:537-561 | what a reader gets after values were applied to a multi-valued field: the list of exactly the given values when they replace the old ones, of the old and the given ones otherwise, ascending and each once |
| MetadataTables.StoredRows | app/models.py:1116-1140 | in every state the ordinals of a field are 0 to n - 1, n at least 1 once it has an event, one shared state, constraint met, one row for a settled single value |
| Chunking.TrimIsUnique | app/embeddings/chunking.py:16-21 | trimming is determined by its specification |
| Chunking.NonemptySpan | app/embeddings/chunking.py:16-21 | the span without whitespace at its ends, or none if it is blank |
| Chunking.SplitIsSound | app/embeddings/chunking.py:24-38 | the pieces of a long span are ordered, disjoint, trimmed, at most max long, and cover every non-blank character |
| Chunking.SplitLongSpan | app/embeddings/chunking.py:24-38 | the loop computes these pieces and terminates; a piece that ends neither at white space nor with the span has no blank behind its first character |
| Chunking.SplitsAtBlanks | app/embeddings/chunking.py:27-36 | no word is cut where a blank in reach would have spared it |
| Chunking.UnitsAreSound | app/embeddings/chunking.py:41-55 | the same of the units of a text |
| Chunking.UnitsFollowCuts | app/embeddings/chunking.py:42-54 | no unit crosses a boundary, and a segment that is not longer than the maximum is one unit |
| Chunking.SemanticUnits | app/embeddings/chunking.py:41-55 | the loop computes the units |
| Chunking.EveryUnitIsEmitted | app/embeddings/chunking.py:101-108 | no buffered unit is dropped before it is emitted, for any limits |
| Chunking.ChunksCoverText | app/embeddings/chunking.py:58-112 | every character that is not whitespace lies in some chunk |
| Chunking.ChunkTextIsSlice | app/embeddings/chunking.py:77-90 | the text of a chunk is the slice between its offsets, and its id is made of the source hash, its ordinal and its offsets |
| Chunking.RunShape | app/embeddings/chunking.py:100-108 | runs fit the maximum, starts increase, ends do not decrease, overlap is bounded and as large as fits; a run repeats old text exactly when the next unit is too long |
| Chunking.RunsEndInTime | app/embeddings/chunking.py:100-112 | a run ends where it reaches the target, where the next unit does not fit, or with the text, and without its last unit it is below the target |
| Chunking.CarriedUnitIsEmittedAgain | app/embeddings/chunking.py:100-103 | a text whose second chunk is carried overlap only |
| Chunking.ChunkShape | app/config.py:55-61 | the shape of the chunks under the accepted settings |
| Chunking.ChunkCount | app/embeddings/chunking.py:100-108 | at most twice as many chunks as units |
| Chunking.RetainedIsCarry | app/embeddings/chunking.py:92-98 | what emit retains is the longest tail of the buffer within the overlap |
| Chunking.FinalSpanIsNew | app/embeddings/chunking.py:109-111 | the duplicate test at the end never suppresses a chunk |
| Chunking.ChunkBuilder.Emit | app/embeddings/chunking.py:73-98 | a chunk of the buffered units is appended and the retained overlap stays |
| Chunking.MakeRoom | app/embeddings/chunking.py:101-104 | the buffer is emitted, and emptied if need be, when the next unit does not fit |
| Chunking.AppendUnit | app/embeddings/chunking.py:105-108 | the unit joins the buffer, which is emitted at the target |
| Chunking.Finish | app/embeddings/chunking.py:109-112 | what was added since the last emit is emitted |
| Chunking.ComputeSemanticChunks | app/embeddings/chunking.py:58-112 | the loops compute the specified chunks, or refuse a target above the maximum |
| RateLimiter.VoyageRateLimiter.TryAcquire | app/embedding_gateway.py:31-43 | one attempt under the lock is the specified step; an admitted attempt is charged its estimate, at least 1 and at most the quota; the wait of a refused one is until the oldest event is a minute old |
| RateLimiter.VoyageRateLimiter.UsedTokens | app/embedding_gateway.py:36-36 | the sum of the charged tokens in the deque |
| RateLimiter.VoyageRateLimiter.Acquire | app/embedding_gateway.py:28-44 | a lone caller is admitted after at most as many waits as there were events, and charged its estimate, at least 1 and at most the quota |
| RateLimiter.QuotasHoldInEveryWindow | app/embedding_gateway.py:28-44 | for any interleaving every 60-second window of the whole history holds both quotas |
| RateLimiter.EstimatesHoldInEveryWindow | app/embedding_gateway.py:28-44 | for any interleaving, in every 60-second window at most requests_per_minute attempts were admitted and their estimates, each taken as at least 1 and at most the quota, sum to at most tokens_per_minute |
| RateLimiter.AdmittedExactly | app/embedding_gateway.py:31-42 | an attempt is admitted if and only if fewer than requests_per_minute attempts were admitted in the last 60 seconds and their estimates leave room for its own |
| RateLimiter.HeadReadIsSafe | app/embedding_gateway.py:43-43 | a refused attempt finds a non-empty deque in every run, exactly if both quotas are positive |
| RateLimiter.RefusedOnlyWithEvents | app/embedding_gateway.py:37-43 | a refused attempt finds events when both quotas are positive |
| RateLimiter.HeadExpires | app/embedding_gateway.py:43-44 | the computed wait expires the head of the deque |
| RateLimiter.WaitIsNeeded | app/embedding_gateway.py:43-44 | a lone caller that comes before the end of its wait is refused again |
| VoyageBatch.GroupsPartition | app/voyage_batch.py:475-483 | groups hold the items in order, all full but the last |
| VoyageBatch.PrepareBatchInput | app/voyage_batch.py:312-372 | accepted exactly for a valid limit, valid lines, unique ids, some item and at most 100,000 requests; request and mapping k carry the same custom id, each input is the text of the item whose id stands at the same place of the mapping, and the two files hold all texts and all ids in order |
| VoyageBatch.FilesDescribe | app/voyage_batch.py:347-360 | the same of the files for the groups of any list of items |
| VoyageJoin.LoadManifest | app/voyage_batch.py:486-506 | accepted exactly for valid, distinct entries; the dictionary of the entries |
| VoyageJoin.JoinRows | app/voyage_batch.py:422-444 | accepted exactly if there is one row with an embedding for every index and no other; each id gets the embedding of its index |
| VoyageJoin.SortedPlace | app/voyage_batch.py:422-430 | sorting complete rows puts the row of index i at place i |
| VoyageJoin.ResolveBatchOutput | app/voyage_batch.py:375-458 | succeeds exactly if every request of the manifest has one good answer and there is no other; the emitted lines, requests and tokens |
| VoyageJoin.TokensAddUp | app/voyage_batch.py:446-448 | the tokens of an answer, and that those of two lists add up |
| VoyageRoundTrip.SuccessEmitsTheManifest | app/voyage_batch.py:403-452 | on any success the emitted ids are those of the manifest's requests, each request once |
| VoyageRoundTrip.RoundTrip | app/voyage_batch.py:312-458 | unique items, any group size, a provider that embeds the inputs of the request file and answers in any order: each item comes out once with the embedding of its own text, and nothing else |
| VoyageRoundTrip.RunBatch | app/voyage_batch.py:312-458 | prepare, a provider that answers the request file, and resolve, run one after the other: succeeds exactly for acceptable source lines, with the embedding of each item's own text |
| VoyageSubmission.Provider.ListBatches | app/voyage_batch.py:155-164 | a page after the cursor, and whether there are more |
| VoyageSubmission.Provider.FindBatch | app/voyage_batch.py:166-189 | the cursor loop terminates and finds a batch exactly if one carries the metadata |
| VoyageSubmission.Provider.FindFile | app/voyage_batch.py:145-153 | the file of the name and purpose, exactly if there is one |
| VoyageSubmission.Provider.UploadFile | app/voyage_batch.py:45-60 | a retried upload may leave several files of that name and purpose, the last of them returned |
| VoyageSubmission.Provider.CreateBatch | app/voyage_batch.py:62-85 | a batch with the metadata is added; it is the only one if none was found before |
| VoyageSubmission.Provider.SubmitReconciled | app/voyage_batch.py:98-132 | whatever is lost, batches are never duplicated; an existing batch is returned; a new batch names a batch file of the given name, which is uploaded only if there is none; an attempt succeeds exactly if the id is present and no call it makes is lost |
| VoyageSubmission.Provider.SubmitRepeatedly | app/voyage_batch.py:98-132 | over any sequence of attempts at most one batch carries an application id, and all attempts that return for it return that batch |
| MatterEmbeddings.PlacesHoldChunks | app/matter_embeddings.py:238-242 | the flat positions of a document hold its chunks in order |
| MatterEmbeddings.Distribute | app/matter_embeddings.py:258-263 | the vectors of a page go to the documents of their positions, in order |
| MatterEmbeddings.EmbedPreparedDocuments | app/matter_embeddings.py:230-263 | each document gets one vector for each chunk, that chunk's own embedding if the gateway is faithful, however pages cut the documents; the pages hold all chunks in order and are full but for the last |
| MatterEmbeddings.Flush | app/matter_embeddings.py:383-404 | the outcomes of the pending documents, and no others, are recorded |
| MatterEmbeddings.RecordSettled | app/matter_embeddings.py:421-431 | settled outcomes fill their slots in whatever order they complete |
| MatterEmbeddings.ProcessDocuments | app/matter_embeddings.py:346-450 | every document has the outcome of storing its own vectors; flush groups are in order, exceed the limit only as a single document, and end only when full or when the next document does not fit |
| MatterEmbeddings.PlanBatches | app/matter_embeddings.py:1046-1082 | the batches hold all documents in order, all full but the last |
| HostedEmbeddings.PagesCover | app/matter_embeddings.py:559-569 | the pages of a document put together are its chunks |
| HostedEmbeddings.PagesNumbered | app/matter_embeddings.py:559-569 | pages are numbered from 0, none is empty or too large, and all but the last are full |
| HostedEmbeddings.PrepareVoyageBatch | app/matter_embeddings.py:522-591 | manifest and requests of all documents, refused above 100,000 requests |
| HostedEmbeddings.OrderRows | app/matter_embeddings.py:797-809 | accepted exactly for complete indices and matching dimensions; vectors in order of the index |
| HostedEmbeddings.ReadVoyageResults | app/matter_embeddings.py:760-813 | accepted exactly for valid lines and distinct ids; each answer becomes vectors or an error |
| HostedEmbeddings.ManifestCounts | app/matter_embeddings.py:594-612 | the settled documents are counted by outcome |
| HostedEmbeddings.JoinDocument | app/matter_embeddings.py:881-907 | the pages' vectors in order, unless a page failed, is missing, or the counts differ |
| HostedEmbeddings.JoinDocuments | app/matter_embeddings.py:877-919 | joined documents are collected, the others counted as failed |
| HostedEmbeddings.CountStored | app/matter_embeddings.py:930-940 | stored documents are counted by outcome in whatever order they complete |
| HostedEmbeddings.Finalize | app/matter_embeddings.py:875-948 | a PENDING document is stored exactly if all its pages were answered and gave one vector for each chunk, and counts as failed otherwise; the counters are the numbers of EMBEDDED, SKIPPED and failed documents, for any results |
| HostedEmbeddings.VerdictIsAccounted | app/matter_embeddings.py:877-919 | what becomes of one document: settled before, stored with as many vectors as it has chunks, or failed |
| HostedEmbeddings.AnswersReachTheirChunks | app/matter_embeddings.py:797-809 | with one row for each input, in any order of lines and rows, each document is joined with the embeddings of its own chunks |
| HostedEmbeddings.RunHosted | app/matter_embeddings.py:483-948 | prepare, answer in any order, read and finalize stores the vectors that the synchronous path computes, and counts the outcomes of storing them |
| AgentService.Agents.StartTurn | app/agent_conversations.py:63-125 | a turn starts exactly for an ACTIVE or COMPLETED conversation, with a QUEUED run at place 1 and the conversation ACTIVE |
| AgentService.Agents.DecideAction | app/agent_conversations.py:128-195 | a pending request gets exactly the decision that was given: APPROVE makes it APPROVED, REJECT makes it REJECTED, and no other request changes; the run is resumed exactly by its last decision, at the next place of its turn |
| AgentService.Agents.PersistOutcome | app/agent_runtime.py:878-957 | a waiting run gets one PENDING request for each call, under its own id; a finished one is COMPLETED with its conversation; a repeated call violates the unique constraint and changes nothing |
| AgentService.Agents.PrepareRun | app/agent_runtime.py:718-777 | which runs may go on, with run and conversation then RUNNING and ACTIVE, and every error |
| AgentService.Agents.FailAgentRun | app/agent_runtime.py:960-975 | run and conversation become FAILED and nothing else changes |
| AgentService.Agents.LinkedActionRequest | app/agent_runtime.py:176-184 | the request that a call of a resumed run was deferred for |
| AgentService.Agents.RecordTool | app/agent_runtime.py:187-258 | without approval nothing happens; the effect of this call is committed exactly when the execution ends well, together with EXECUTED |
| AgentApproval.RunKeeps | app/agent_conversations.py:128-195 | the invariant of requests, decisions, effects and runs holds in every run of steps |
| AgentApproval.DecidedOnce | app/agent_conversations.py:136-150 | a request has at most one decision |
| AgentApproval.ExecutedOnceAndApproved | app/agent_runtime.py:199-248 | an operation takes effect at most once, exactly with EXECUTED, and only after APPROVE |
| AgentApproval.EffectsFollowAnswers | app/agent_conversations.py:136-150 | over any run: a request is answered by one step at most; what it asks for takes effect only if that step approves it, and never if it rejects it |
| AgentApproval.RecordedWasAnswered | app/agent_conversations.py:142-150 | every recorded decision is the answer that some step gave to the pending request |
| AgentApproval.AnsweredIsRecorded | app/agent_conversations.py:142-150 | every answer given to a pending request stays recorded |
| AgentApproval.EffectsAsAsked | app/agent_runtime.py:176-248 | what takes effect for a request is the call that it asked for, in the run that resumes the asking one |
| AgentApproval.ResumedExactlyWhenDecided | app/agent_conversations.py:153-185 | a run has exactly one resumed run once all its requests are decided, and none before |
| AgentApproval.DecisionsAreNeverIncomplete | app/agent_runtime.py:751-767 | the error for incomplete decisions is unreachable |
| AgentApproval.ResumeIsNeverRefused | app/models.py:1467-1478 | the unique place of the resumed run in its turn is always free |
| ForwardingEnvelopes.SameBody | artifact_service/text_processing.py:497-522 | collecting the subject does not change where the body starts |
| ForwardingEnvelopes.BodyIs | artifact_service/text_processing.py:497-522 | the body starts at the first place behind a header and blank lines where neither a blank line nor a header follows, if those blank lines start within 50 lines; no other place is found |
| ForwardingEnvelopes.SegmentsTile | artifact_service/text_processing.py:408-446 | the cuts cover the lines without gap or overlap, for any line tests |
| ForwardingEnvelopes.SkipToBody | artifact_service/text_processing.py:486-495 | the first line after the separator and the blank lines behind it |
| ForwardingEnvelopes.AfterSeparatorIs | artifact_service/text_processing.py:486-495 | a separator ends with the first line that closes it and the blank lines behind that; one that is not closed takes the rest |
| ForwardingEnvelopes.ScanForBody | artifact_service/text_processing.py:422-438 | the scan of at most 50 lines finds the body that the specification names |
| ForwardingEnvelopes.ScanWithSubject | artifact_service/text_processing.py:497-522 | so does the scan that collects the subject |
| ForwardingEnvelopes.LoneSubjectIs | artifact_service/text_processing.py:504-514 | the subject of an envelope with a single non-empty Subject header is that header with the lines that continue it |
| ForwardingEnvelopes.LoneSubjectIsLeft | artifact_service/text_processing.py:531-537 | such an envelope leaves its subject in the output, behind what comes before it, unless the last output line or one of the first twelve body lines shows it |
| ForwardingEnvelopes.LastOutputLine | artifact_service/text_processing.py:532-532 | the last line of the output that is not blank |
| ForwardingEnvelopes.BodyRepeatsSubject | artifact_service/text_processing.py:466-478 | one of the first twelve body lines repeats the subject |
| ForwardingEnvelopes.Unwrap4 | artifact_service/text_processing.py:398-446 | version 4 terminates and outputs the kept lines and the count |
| ForwardingEnvelopes.Unwrap5 | artifact_service/text_processing.py:449-553 | versions 5 to 7 terminate and output the kept lines with the inserted subjects, and the count |
| ForwardingEnvelopes.OutputKeeps | artifact_service/text_processing.py:531-537 | without the inserted pairs the output is what the cuts keep |
| ForwardingEnvelopes.KeptExactly | artifact_service/text_processing.py:408-446 | a line is kept exactly if it lies in no envelope and in no separator that is dropped |
| ForwardingEnvelopes.RemovedExactly | artifact_service/text_processing.py:524-538 | the count is the number of envelopes and dropped separators |
| ForwardingEnvelopes.PlainTextStays | artifact_service/text_processing.py:480-484 | a text without a separator stays as it is in every version, and nothing is counted |
| ForwardingEnvelopes.DroppingKeepsLess | artifact_service/text_processing.py:524-529 | dropping headerless separators keeps a subsequence and counts no less |
| ForwardingEnvelopes.VersionsAgree | artifact_service/text_processing.py:398-544 | version 4 keeps lines in order; version 5 makes the same cuts; version 6 keeps a subsequence of version 5 |
| ForwardingEnvelopes.LastVersionKeepsOrder | artifact_service/text_processing.py:547-553 | version 7 keeps input lines in order and adds subject pairs only |

## Left out

- HTTP routing, S3, SQL, the workflow engine, logging, clocks and thread pools: plumbing; locks and transactions are atomic steps, completion orders are arbitrary.
- E-mail rows, recipients, custodians, text processing profiles, metrics and usage records: they hang on the modelled rows and carry no property of their own.
- `value_columns` and JSON, Parquet, HTML and e-mail parsing: a raw value carries the column it is stored in, or none when it is refused.
- `update_metadata_definition`: it changes policies without projecting again, so the definitions are fixed in `MetadataTables.Tables`.
- Clustering, search indexing, definitions, imports, usage counters, profiles and the approval timeout: counters, copies and library calls.
- File name comparison in `upload_source_container`: the container is modelled as a step that inserts, the lookup of an equal container is not.
- Float rounding in the rate limiter: times and waits are real numbers.
- ArtifactService.Service.DeleteBlobBatch: takes the first PENDING rows by the id of the blob, where the table orders by the id of the row; no property depends on the order.
- ArtifactService.Service.DeleteItemBatch: the parent check refuses a batch at the end of the statement, as the foreign key does; after preparing it never does.
- ArtifactService.Service.UploadItem: a reused item is compared with one NATIVE artifact, which every item has after its upload.
- ArtifactService.Service.StoreDerivedArtifact: all artifacts are FINALIZED, the only status that the modelled code writes.
- ArtifactService.Service.RunDeletion: the exact end is that of the job's own steps, resumed as often as may be; steps of other callers in between are covered by the lemmas about all runs, since a derived store may still add to the collection before its record is deleted.
- ArtifactService.Service.DeleteCollection: access checks, the audit record and the look at the blockers before the request are not modelled; the workflow follows the request at once.
- VoyageJoin.ResolveBatchOutput: says when resolving fails, not which of the errors is raised first.
- VoyageSubmission.Provider.SubmitReconciled: attempts follow each other; two at once may both find nothing and create a batch each. Only the `submit_reconciled` path is modelled, with a provider that lists every batch it holds.
- MatterEmbeddings.ProcessDocuments: an error of the gateway ends the call without outcomes, as in the code; which documents were stored before is not stated.
- HostedEmbeddings.Finalize: chunk totals and error texts are not modelled, and the chunk set read back is the one that was prepared.
- HostedEmbeddings.RunHosted: assumes one row for each input, because only a document's total number of vectors is compared; a separate error file is not read.
- AgentService.Agents.RecordTool: executions follow each other; the second approval check sees the row that was read first, so that two executions of one request at once are not excluded by it.
- AgentService.Agents.PrepareRun: prompt, history, limits and access checks are not modelled.
- ForwardingEnvelopes.BodyIs: for tests under which no blank line is a header, as the patterns of the code guarantee.
- ForwardingEnvelopes.Unwrap5: how a subject is put together and compared is left to arbitrary functions.
