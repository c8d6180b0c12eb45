/**
  Submitting a batch so that it exists once, although requests and responses get lost
  (`submit_reconciled` and `find_batch` of app/voyage_batch.py).

  The provider is an object whose files and batches grow as requests take effect.  What happens to the calls of
  one attempt is given by a script: at which call the attempt is lost, how often an upload took effect (it is
  retried), and whether a lost create request took effect (it is not retried).
 */
module VoyageSubmission {
  import opened Common

  const BATCH_KEY: string := "priv_view_batch_id"
  const PAGE_LIMIT: nat := 100

  datatype RemoteFile = RemoteFile(id: nat, filename: string, purpose: string)

  datatype RemoteBatch = RemoteBatch(id: nat, inputFile: nat, metadata: Option<map<string, string>>)

  datatype Call = FirstSearch | FileSearch | Upload | SecondSearch | Create | NoCall

  datatype Script = Script(lostAt: Call, uploads: nat, created: bool, place: nat)

  datatype Error = MissingBatchId | Lost

  datatype Attempt = Attempt(filename: string, metadata: map<string, string>, script: Script)

  predicate Has(b: RemoteBatch, key: string, value: string) {
    b.metadata.Some? && key in b.metadata.value && b.metadata.value[key] == value
  }

  // The first batch of the list with this metadata.
  function Find(batches: seq<RemoteBatch>, key: string, value: string): Option<RemoteBatch> {
    if batches == [] then None
    else if Has(batches[0], key, value) then Some(batches[0])
    else Find(batches[1..], key, value)
  }

  lemma {:induction false} FindIs(batches: seq<RemoteBatch>, key: string, value: string)
    ensures var found := Find(batches, key, value);
      && (found.Some? ==> found.value in batches && Has(found.value, key, value))
      && (found.None? ==> forall b :: b in batches ==> !Has(b, key, value))
  {
    if batches != [] {
      assert batches == [batches[0]] + batches[1..];
      FindIs(batches[1..], key, value);
    }
  }

  lemma {:induction false} FindSkips(batches: seq<RemoteBatch>, k: nat, key: string, value: string)
    requires k <= |batches| && forall i :: 0 <= i < k ==> !Has(batches[i], key, value)
    ensures Find(batches, key, value) == Find(batches[k..], key, value)
  {
    if k == 0 {
      assert batches[0..] == batches;
    } else {
      forall i | 0 <= i < k - 1 ensures !Has(batches[1..][i], key, value) {
        assert batches[1..][i] == batches[i + 1];
      }
      FindSkips(batches[1..], k - 1, key, value);
      assert batches[1..][k - 1..] == batches[k..];
    }
  }

  // At most one batch carries each application batch id.
  ghost predicate AtMostOne(batches: seq<RemoteBatch>) {
    forall i, j, app :: 0 <= i < j < |batches| && Has(batches[i], BATCH_KEY, app) ==> !Has(batches[j], BATCH_KEY, app)
  }

  predicate DistinctBatches(batches: seq<RemoteBatch>) {
    forall i, j :: 0 <= i < j < |batches| ==> batches[i].id != batches[j].id
  }

  function Inserted(batches: seq<RemoteBatch>, b: RemoteBatch, place: nat): seq<RemoteBatch> {
    var p := if place < |batches| then place else |batches|;
    batches[..p] + [b] + batches[p..]
  }

  lemma InsertedMembers(batches: seq<RemoteBatch>, b: RemoteBatch, place: nat)
    ensures forall x :: x in Inserted(batches, b, place) <==> x in batches || x == b
  {
    var p := if place < |batches| then place else |batches|;
    assert batches == batches[..p] + batches[p..];
  }

  lemma InsertedOrder(batches: seq<RemoteBatch>, b: RemoteBatch, place: nat, i: nat)
    requires i <= |batches|
    ensures var p := if place < |batches| then place else |batches|;
      Inserted(batches, b, place)[i] == if i < p then batches[i] else if i == p then b else batches[i - 1]
  {
  }

  lemma InsertedKeepsOne(batches: seq<RemoteBatch>, b: RemoteBatch, place: nat)
    requires AtMostOne(batches) && DistinctBatches(batches)
    requires forall x :: x in batches ==> x.id != b.id && forall app :: Has(b, BATCH_KEY, app) ==> !Has(x, BATCH_KEY, app)
    ensures AtMostOne(Inserted(batches, b, place)) && DistinctBatches(Inserted(batches, b, place))
  {
    var after := Inserted(batches, b, place);
    forall i, j | 0 <= i < j < |after|
      ensures after[i].id != after[j].id
      ensures forall app :: Has(after[i], BATCH_KEY, app) ==> !Has(after[j], BATCH_KEY, app)
    {
      InsertedOrder(batches, b, place, i);
      InsertedOrder(batches, b, place, j);
    }
  }

  // The position after the cursor.
  function After(batches: seq<RemoteBatch>, cursor: nat): nat {
    if batches == [] then 0 else if batches[0].id == cursor then 1 else 1 + After(batches[1..], cursor)
  }

  lemma {:induction false} AfterIs(batches: seq<RemoteBatch>, k: nat)
    requires k < |batches| && DistinctBatches(batches)
    ensures After(batches, batches[k].id) == k + 1
  {
    if k > 0 {
      forall i, j | 0 <= i < j < |batches[1..]| ensures batches[1..][i].id != batches[1..][j].id {
        assert batches[1..][i] == batches[i + 1] && batches[1..][j] == batches[j + 1];
      }
      AfterIs(batches[1..], k - 1);
    }
  }

  predicate HasFile(files: seq<RemoteFile>, filename: string) {
    exists f :: f in files && f.filename == filename && f.purpose == "batch"
  }

  // The attempt makes the call at which it is lost: after the first search nothing more is called when the batch
  // is found, and nothing is uploaded when the file is there.
  predicate CallLost(files: seq<RemoteFile>, batches: seq<RemoteBatch>, filename: string, app: string, script: Script) {
    match script.lostAt
    case NoCall => false
    case FirstSearch => true
    case Upload => Find(batches, BATCH_KEY, app) == None && !HasFile(files, filename)
    case _ => Find(batches, BATCH_KEY, app) == None
  }

  class Provider {
    var files: seq<RemoteFile>
    var batches: seq<RemoteBatch>
    var nextId: nat

    ghost predicate Valid()
      reads this
    {
      DistinctBatches(batches) && forall b :: b in batches ==> b.id < nextId
    }

    constructor ()
      ensures Valid() && files == [] && batches == []
    {
      files, batches, nextId := [], [], 0;
    }

    // list_batches: one page after the cursor, and whether there are more
    method ListBatches(after: Option<nat>) returns (rows: seq<RemoteBatch>, hasMore: bool)
      requires Valid() && (after.Some? ==> After(batches, after.value) <= |batches|)
      ensures var start := if after.Some? then After(batches, after.value) else 0;
        && |rows| <= PAGE_LIMIT && start + |rows| <= |batches| && rows == batches[start..start + |rows|]
        && (hasMore <==> start + |rows| < |batches|) && (hasMore ==> |rows| == PAGE_LIMIT)
    {
      var start := if after.Some? then After(batches, after.value) else 0;
      var end := if start + PAGE_LIMIT < |batches| then start + PAGE_LIMIT else |batches|;
      return batches[start..end], end < |batches|;
    }

    // find_batch: the pages are read until the batch is found or there are no more
    method FindBatch(key: string, value: string) returns (found: Option<RemoteBatch>)
      requires Valid()
      ensures found == Find(batches, key, value)
    {
      var after: Option<nat> := None;
      ghost var read := 0;
      while true
        invariant read <= |batches| && read == if after.Some? then After(batches, after.value) else 0
        invariant forall i :: 0 <= i < read ==> !Has(batches[i], key, value)
        decreases |batches| - read
      {
        var rows, hasMore := ListBatches(after);
        for i := 0 to |rows|
          invariant forall k :: 0 <= k < read + i ==> !Has(batches[k], key, value)
        {
          if Has(rows[i], key, value) {
            FindSkips(batches, read + i, key, value);
            return Some(rows[i]);
          }
        }
        if !hasMore || rows == [] {
          FindSkips(batches, |batches|, key, value);
          return None;
        }
        after := Some(rows[|rows| - 1].id);
        AfterIs(batches, read + |rows| - 1);
        read := read + |rows|;
      }
    }

    method FindFile(filename: string) returns (found: Option<RemoteFile>)
      ensures found.Some? <==> HasFile(files, filename)
      ensures found.Some? ==> found.value in files && found.value.filename == filename && found.value.purpose == "batch"
    {
      for i := 0 to |files|
        invariant forall k :: 0 <= k < i ==> !(files[k].filename == filename && files[k].purpose == "batch")
      {
        if files[i].filename == filename && files[i].purpose == "batch" {
          return Some(files[i]);
        }
      }
      return None;
    }

    // An upload that took effect `times` times, the last of them answered.
    method UploadFile(filename: string, times: nat) returns (file: RemoteFile)
      requires Valid()
      modifies this`files, this`nextId
      ensures Valid() && |files| == |old(files)| + times && files[..|old(files)|] == old(files)
      ensures file.filename == filename && file.purpose == "batch" && (times > 0 ==> file in files)
      ensures forall f :: f in files && f !in old(files) ==> f.filename == filename && f.purpose == "batch"
    {
      file := RemoteFile(nextId, filename, "batch");
      for i := 0 to times
        invariant Valid() && |files| == |old(files)| + i && files[..|old(files)|] == old(files)
        invariant file.filename == filename && file.purpose == "batch" && (i > 0 ==> file in files)
        invariant forall f :: f in files && f !in old(files) ==> f.filename == filename && f.purpose == "batch"
      {
        file := RemoteFile(nextId, filename, "batch");
        files, nextId := files + [file], nextId + 1;
      }
    }

    method CreateBatch(inputFile: nat, metadata: map<string, string>, place: nat) returns (b: RemoteBatch)
      requires Valid()
      modifies this`batches, this`nextId
      ensures Valid() && b.metadata == Some(metadata) && b.inputFile == inputFile && batches == Inserted(old(batches), b, place)
      ensures old(AtMostOne(batches)) && (BATCH_KEY in metadata && old(Find(batches, BATCH_KEY, metadata[BATCH_KEY])) == None) ==> AtMostOne(batches)
    {
      b := RemoteBatch(nextId, inputFile, Some(metadata));
      InsertedMembers(batches, b, place);
      if AtMostOne(batches) && BATCH_KEY in metadata && Find(batches, BATCH_KEY, metadata[BATCH_KEY]) == None {
        FindIs(batches, BATCH_KEY, metadata[BATCH_KEY]);
        InsertedKeepsOne(batches, b, place);
      }
      InsertedDistinct(batches, b, place);
      batches, nextId := Inserted(batches, b, place), nextId + 1;
    }

    // submit_reconciled
    method SubmitReconciled(filename: string, metadata: map<string, string>, script: Script) returns (r: Result<RemoteBatch, Error>)
      requires Valid() && AtMostOne(batches)
      modifies this
      ensures Valid() && AtMostOne(batches)
      ensures BATCH_KEY !in metadata || metadata[BATCH_KEY] == "" ==> r == Err(MissingBatchId) && batches == old(batches)
      ensures r.Ok? ==> BATCH_KEY in metadata && r.value in batches && Has(r.value, BATCH_KEY, metadata[BATCH_KEY])
      ensures forall b :: b in old(batches) ==> b in batches
      ensures forall b :: b in batches && b !in old(batches) ==>
        BATCH_KEY in metadata && b.metadata == Some(metadata) && NamesFile(files, b.inputFile, filename)
      ensures old(files) <= files && (old(HasFile(files, filename)) ==> files == old(files))
      ensures forall f :: f in files && f !in old(files) ==> f.filename == filename && f.purpose == "batch"
      ensures BATCH_KEY in metadata && old(Find(batches, BATCH_KEY, metadata[BATCH_KEY])).Some? ==>
        batches == old(batches) && (r.Ok? ==> r.value == old(Find(batches, BATCH_KEY, metadata[BATCH_KEY])).value)
      ensures r.Ok? <==> BATCH_KEY in metadata && metadata[BATCH_KEY] != "" && !old(CallLost(files, batches, filename, metadata[BATCH_KEY], script))
    {
      if BATCH_KEY !in metadata || metadata[BATCH_KEY] == "" {
        return Err(MissingBatchId);
      }
      var app := metadata[BATCH_KEY];
      FindIs(batches, BATCH_KEY, app);
      if script.lostAt == FirstSearch {
        return Err(Lost);
      }
      var existing := FindBatch(BATCH_KEY, app);
      if existing.Some? {
        return Ok(existing.value);
      }
      if script.lostAt == FileSearch {
        return Err(Lost);
      }
      var file := FindFile(filename);
      var inputFile;
      if file.Some? {
        inputFile := file.value.id;
      } else if script.lostAt == Upload {
        var lost := UploadFile(filename, script.uploads);
        return Err(Lost);
      } else {
        var uploaded := UploadFile(filename, script.uploads + 1);
        inputFile := uploaded.id;
      }
      if script.lostAt == SecondSearch {
        return Err(Lost);
      }
      existing := FindBatch(BATCH_KEY, app);
      if existing.Some? {
        assert false;
      }
      if script.lostAt == Create && !script.created {
        return Err(Lost);
      }
      var b := CreateBatch(inputFile, metadata, script.place);
      InsertedMembers(old(batches), b, script.place);
      return if script.lostAt == Create then Err(Lost) else Ok(b);
    }

    // Any number of attempts, one after the other: at most one batch ever carries an application batch id, and
    // all attempts for it that return at all return that batch.
    method SubmitRepeatedly(attempts: seq<Attempt>) returns (results: seq<Result<RemoteBatch, Error>>)
      requires Valid() && AtMostOne(batches)
      modifies this
      ensures Valid() && AtMostOne(batches) && |results| == |attempts|
      ensures forall b :: b in old(batches) ==> b in batches
      ensures forall i :: 0 <= i < |attempts| && results[i].Ok? ==> Returned(batches, attempts[i], results[i].value)
      ensures forall i, b :: 0 <= i < |attempts| && results[i].Ok? && Returned(batches, attempts[i], b) ==> b == results[i].value
      ensures forall i, j :: 0 <= i < |attempts| && 0 <= j < |attempts| && results[i].Ok? && results[j].Ok? && SameBatchId(attempts[i], attempts[j]) ==>
        results[i].value == results[j].value
    {
      results := [];
      for i := 0 to |attempts|
        invariant Valid() && AtMostOne(batches) && |results| == i
        invariant forall b :: b in old(batches) ==> b in batches
        invariant forall k :: 0 <= k < i && results[k].Ok? ==> Returned(batches, attempts[k], results[k].value)
      {
        var r := SubmitReconciled(attempts[i].filename, attempts[i].metadata, attempts[i].script);
        results := results + [r];
      }
      forall i, b | 0 <= i < |attempts| && results[i].Ok? && Returned(batches, attempts[i], b) ensures b == results[i].value {
        OnlyOne(batches, b, results[i].value, attempts[i].metadata[BATCH_KEY]);
      }
      forall i, j | 0 <= i < |attempts| && 0 <= j < |attempts| && results[i].Ok? && results[j].Ok? && SameBatchId(attempts[i], attempts[j])
        ensures results[i].value == results[j].value
      {
        assert Returned(batches, attempts[i], results[j].value);
      }
    }
  }

  lemma InsertedDistinct(batches: seq<RemoteBatch>, b: RemoteBatch, place: nat)
    requires DistinctBatches(batches) && forall x :: x in batches ==> x.id != b.id
    ensures DistinctBatches(Inserted(batches, b, place))
  {
    var after := Inserted(batches, b, place);
    forall i, j | 0 <= i < j < |after| ensures after[i].id != after[j].id {
      InsertedOrder(batches, b, place, i);
      InsertedOrder(batches, b, place, j);
    }
  }

  // The id is that of a batch file with this name.
  predicate NamesFile(files: seq<RemoteFile>, id: nat, filename: string) {
    exists i :: 0 <= i < |files| && files[i] == RemoteFile(id, filename, "batch")
  }

  predicate SameBatchId(a: Attempt, b: Attempt) {
    BATCH_KEY in a.metadata && BATCH_KEY in b.metadata && a.metadata[BATCH_KEY] == b.metadata[BATCH_KEY]
  }

  // The attempt's batch is this one.
  ghost predicate Returned(batches: seq<RemoteBatch>, attempt: Attempt, b: RemoteBatch) {
    BATCH_KEY in attempt.metadata && b in batches && Has(b, BATCH_KEY, attempt.metadata[BATCH_KEY])
  }

  lemma OnlyOne(batches: seq<RemoteBatch>, a: RemoteBatch, b: RemoteBatch, app: string)
    requires AtMostOne(batches) && a in batches && b in batches && Has(a, BATCH_KEY, app) && Has(b, BATCH_KEY, app)
    ensures a == b
  {
    var i :| 0 <= i < |batches| && batches[i] == a;
    var j :| 0 <= j < |batches| && batches[j] == b;
    assert i == j;
  }
}
