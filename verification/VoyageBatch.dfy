/**
  Splitting source items into batch requests and joining the unordered answers back to them
  (app/voyage_batch.py).  Files are sequences of parsed lines; `request-%08d` is `Numbered(n)`.
 */
module VoyageBatch {
  import opened Common

  type Vector = seq<real>

  datatype CustomId = Numbered(n: nat) | Foreign(name: string)

  // What the parser's _required_string lets through is never empty.
  type Required = s: string | s != "" witness "?"

  datatype Item = Item(id: Required, text: Required)

  // A line of a file: blank, refused by the parser, or an entry.
  datatype Line<T> = Blank | Malformed | Entry(value: T)

  type SourceLine = Line<Item>

  datatype Request = Request(custom: CustomId, input: seq<string>)

  datatype Mapping = Mapping(custom: CustomId, ids: seq<string>)

  type ManifestLine = Line<Mapping>

  datatype Row = NoIndex | Row(index: int, embedding: Option<Vector>)

  datatype Outcome = Failed | NotOk | NoBody | NoData | Data(rows: seq<Row>, tokens: Option<int>)

  datatype Answer = Answer(custom: CustomId, outcome: Outcome)

  type OutputLine = Line<Answer>

  datatype Emitted = Emitted(id: string, embedding: Vector)

  datatype Error =
    | InvalidLimit | InvalidLine | DuplicateId | TooManyRequests | NoItems | InvalidManifest | DuplicateCustomId
    | EmptyManifest | UnknownCustomId | RequestFailed | BadIndex | WrongCount | MissingIndex | BadEmbedding | MissingRequests

  const MAX_REQUESTS: nat := 100_000

  // ---------------------------------------------------------------- _groups

  function Flatten<T>(parts: seq<seq<T>>): seq<T> {
    if parts == [] then [] else Flatten(parts[..|parts| - 1]) + parts[|parts| - 1]
  }

  // The value joins the last group, or starts a new one when that is full.
  function Push<T>(groups: seq<seq<T>>, value: T, size: nat): seq<seq<T>> {
    if groups == [] || |groups[|groups| - 1]| >= size then groups + [[value]]
    else groups[..|groups| - 1] + [groups[|groups| - 1] + [value]]
  }

  function Groups<T>(values: seq<T>, size: nat): (groups: seq<seq<T>>)
    ensures values != [] ==> groups != []
  {
    if values == [] then [] else Push(Groups(values[..|values| - 1], size), values[|values| - 1], size)
  }

  lemma FlattenSnoc<T>(parts: seq<seq<T>>, part: seq<T>)
    ensures Flatten(parts + [part]) == Flatten(parts) + part
  {
    assert (parts + [part])[..|parts|] == parts;
  }

  lemma PushFlattens<T>(groups: seq<seq<T>>, value: T, size: nat)
    ensures Flatten(Push(groups, value, size)) == Flatten(groups) + [value]
  {
    if groups == [] || |groups[|groups| - 1]| >= size {
      FlattenSnoc(groups, [value]);
    } else {
      var front, last := groups[..|groups| - 1], groups[|groups| - 1];
      FlattenSnoc(front, last + [value]);
      assert Flatten(groups) == Flatten(front) + last;
      assert Flatten(front) + (last + [value]) == (Flatten(front) + last) + [value];
    }
  }

  // All groups are full but the last, which is not empty.
  ghost predicate Sized<T>(groups: seq<seq<T>>, size: nat) {
    && (forall k :: 0 <= k < |groups| ==> 1 <= |groups[k]| <= size)
    && (forall k :: 0 <= k < |groups| - 1 ==> |groups[k]| == size)
  }

  lemma PushKeepsSizes<T>(groups: seq<seq<T>>, value: T, size: nat)
    requires Sized(groups, size) && size >= 1
    ensures Sized(Push(groups, value, size), size)
  {
  }

  // The groups hold the values in order, whatever the size.
  lemma {:induction false} GroupsFlatten<T>(values: seq<T>, size: nat)
    ensures Flatten(Groups(values, size)) == values
  {
    if values != [] {
      var front, last := values[..|values| - 1], values[|values| - 1];
      assert values == front + [last];
      GroupsFlatten(front, size);
      PushFlattens(Groups(front, size), last, size);
    }
  }

  lemma {:induction false} GroupsPartition<T>(values: seq<T>, size: nat)
    requires size >= 1
    ensures Flatten(Groups(values, size)) == values && Sized(Groups(values, size), size)
  {
    GroupsFlatten(values, size);
    if values != [] {
      GroupsPartition(values[..|values| - 1], size);
      PushKeepsSizes(Groups(values[..|values| - 1], size), values[|values| - 1], size);
    }
  }

  lemma GroupsSnoc<T>(values: seq<T>, value: T, size: nat)
    ensures Groups(values + [value], size) == Push(Groups(values, size), value, size)
    ensures |Groups(values, size)| <= |Groups(values + [value], size)|
  {
    assert (values + [value])[..|values|] == values;
  }

  lemma {:induction false} GroupsGrow<T>(values: seq<T>, more: seq<T>, size: nat)
    ensures |Groups(values, size)| <= |Groups(values + more, size)|
  {
    if more == [] {
      assert values + more == values;
    } else {
      var front, last := more[..|more| - 1], more[|more| - 1];
      GroupsGrow(values, front, size);
      GroupsSnoc(values + front, last, size);
      assert values + more == (values + front) + [last];
    }
  }

  // ---------------------------------------------------------------- prepare_batch_input

  // The entries of a file, in order.
  function Values<T>(lines: seq<Line<T>>): seq<T> {
    if lines == [] then []
    else
      var last := lines[|lines| - 1];
      Values(lines[..|lines| - 1]) + if last.Entry? then [last.value] else []
  }

  lemma ValuesSnoc<T>(lines: seq<Line<T>>, line: Line<T>)
    ensures Values(lines + [line]) == Values(lines) + if line.Entry? then [line.value] else []
  {
    assert (lines + [line])[..|lines|] == lines;
  }

  // The entries of the first lines come first.
  lemma {:induction false} ValuesPrefix<T>(lines: seq<Line<T>>, k: nat)
    requires k <= |lines|
    ensures |Values(lines[..k])| <= |Values(lines)| && Values(lines)[..|Values(lines[..k])|] == Values(lines[..k])
  {
    if k == |lines| {
      assert lines[..k] == lines;
    } else {
      var front := lines[..|lines| - 1];
      ValuesPrefix(front, k);
      assert front[..k] == lines[..k];
    }
  }

  lemma NextValue<T>(lines: seq<Line<T>>, k: nat)
    requires k < |lines| && lines[k].Entry?
    ensures var some, all := Values(lines[..k]), Values(lines);
      |some| < |all| && all[..|some|] == some && all[|some|] == lines[k].value && Values(lines[..k + 1]) == some + [lines[k].value]
  {
    assert lines[..k + 1] == lines[..k] + [lines[k]];
    ValuesSnoc(lines[..k], lines[k]);
    ValuesPrefix(lines, k + 1);
    var some, all := Values(lines[..k + 1]), Values(lines);
    assert all[|some| - 1] == some[|some| - 1];
    assert all[..|some| - 1] == some[..|some| - 1];
  }

  function Ids(items: seq<Item>): seq<string> {
    seq(|items|, i requires 0 <= i < |items| => items[i].id)
  }

  function Texts(items: seq<Item>): seq<string> {
    seq(|items|, i requires 0 <= i < |items| => items[i].text)
  }

  function RequestFor(k: nat, group: seq<Item>): Request {
    Request(Numbered(k), Texts(group))
  }

  function MappingFor(k: nat, group: seq<Item>): Mapping {
    Mapping(Numbered(k), Ids(group))
  }

  function RequestsFor(groups: seq<seq<Item>>): seq<Request> {
    seq(|groups|, k requires 0 <= k < |groups| => RequestFor(k, groups[k]))
  }

  function ManifestFor(groups: seq<seq<Item>>): seq<Mapping> {
    seq(|groups|, k requires 0 <= k < |groups| => MappingFor(k, groups[k]))
  }

  predicate UniqueIds(items: seq<Item>) {
    forall i, j :: 0 <= i < j < |items| ==> items[i].id != items[j].id
  }

  datatype Prepared = Prepared(requests: seq<Request>, manifest: seq<Mapping>, items: nat)

  predicate Acceptable(lines: seq<SourceLine>, size: nat) {
    && 1 <= size <= 1000 && Malformed !in lines
    && UniqueIds(Values(lines)) && Values(lines) != [] && |Groups(Values(lines), size)| <= MAX_REQUESTS
  }

  function IdSet(items: seq<Item>): set<string> {
    set i | i in items :: i.id
  }

  lemma IdSetSnoc(items: seq<Item>, item: Item)
    ensures IdSet(items + [item]) == IdSet(items) + {item.id}
  {
    forall id | id in IdSet(items) + {item.id} ensures id in IdSet(items + [item]) {
      if id == item.id {
        assert item in items + [item];
      } else {
        var i :| i in items && i.id == id;
        assert i in items + [item];
      }
    }
  }

  lemma UniqueSnoc(items: seq<Item>, item: Item)
    requires UniqueIds(items) && item.id !in IdSet(items)
    ensures UniqueIds(items + [item])
  {
    forall i | 0 <= i < |items| ensures items[i].id != item.id {
      assert items[i] in items;
    }
  }

  // After some items: the full groups already written, and the group that is being filled.
  ghost predicate Written(groups: seq<seq<Item>>, written: seq<seq<Item>>, group: seq<Item>, size: nat) {
    && groups == written + (if group == [] then [] else [group])
    && |group| < size && forall k :: 0 <= k < |written| ==> |written[k]| == size
  }

  // An item joins the group that is being filled; a full group is written.
  lemma ItemJoins(groups: seq<seq<Item>>, written: seq<seq<Item>>, group: seq<Item>, size: nat, item: Item)
    requires Written(groups, written, group, size)
    ensures Push(groups, item, size) == written + [group + [item]]
    ensures |group| + 1 == size ==> Written(Push(groups, item, size), written + [group + [item]], [], size)
    ensures |group| + 1 < size ==> Written(Push(groups, item, size), written, group + [item], size)
  {
    if group != [] {
      assert groups[..|groups| - 1] == written;
      assert Push(groups, item, size) == written + [group + [item]];
    } else {
      assert groups == written;
      assert [] + [item] == [item];
      assert Push(groups, item, size) == written + [[item]];
    }
  }

  lemma DuplicateStays(items: seq<Item>, id: string, all: seq<Item>)
    requires |items| < |all| && all[..|items|] == items && all[|items|].id == id && exists i :: i in items && i.id == id
    ensures !UniqueIds(all)
  {
    var i :| i in items && i.id == id;
    var k :| 0 <= k < |items| && items[k] == i;
    assert all[k] == i;
  }

  // One more item makes no fewer groups, and the first items of all no more than all.
  lemma NextItem(lines: seq<SourceLine>, k: nat, size: nat)
    requires k < |lines| && lines[k].Entry?
    ensures |Groups(Values(lines[..k]) + [lines[k].value], size)| <= |Groups(Values(lines), size)|
  {
    NextValue(lines, k);
    ValuesPrefix(lines, k + 1);
    var some, all := Values(lines[..k + 1]), Values(lines);
    assert all == some + all[|some|..];
    GroupsGrow(some, all[|some|..], size);
  }

  // The item joins its group, which is written to both files when it is full.
  method WriteItem(requests: seq<Request>, manifest: seq<Mapping>, count: nat, group: seq<Item>, size: nat, item: Item,
                   ghost groups: seq<seq<Item>>, ghost written: seq<seq<Item>>)
    returns (requests': seq<Request>, manifest': seq<Mapping>, count': nat, group': seq<Item>, ghost written': seq<seq<Item>>)
    requires Written(groups, written, group, size) && requests == RequestsFor(written) && manifest == ManifestFor(written)
    ensures Written(Push(groups, item, size), written', group', size)
    ensures requests' == RequestsFor(written') && manifest' == ManifestFor(written')
    ensures count' + |group'| == count + |group| + 1 && |written'| <= |Push(groups, item, size)|
  {
    ItemJoins(groups, written, group, size, item);
    group' := group + [item];
    if |group'| < size {
      return requests, manifest, count, group', written;
    }
    requests' := requests + [RequestFor(|requests|, group')];
    manifest' := manifest + [MappingFor(|manifest|, group')];
    return requests', manifest', count + |group'|, [], written + [group'];
  }

  // Both files and the group that is being filled, after some items.
  ghost predicate Files(items: seq<Item>, requests: seq<Request>, manifest: seq<Mapping>, count: nat, group: seq<Item>,
                        written: seq<seq<Item>>, size: nat) {
    && Written(Groups(items, size), written, group, size)
    && requests == RequestsFor(written) && manifest == ManifestFor(written) && |written| <= MAX_REQUESTS
    && count + |group| == |items|
  }

  method WriteGroups(lines: seq<SourceLine>, size: nat)
    returns (r: Result<Prepared, Error>, group: seq<Item>, ghost written: seq<seq<Item>>)
    requires 1 <= size
    ensures r.Err? ==> !Acceptable(lines, size)
    ensures r.Ok? ==> Malformed !in lines && UniqueIds(Values(lines))
    ensures r.Ok? ==> Files(Values(lines), r.value.requests, r.value.manifest, r.value.items, group, written, size)
  {
    var seen: set<string> := {};
    var requests: seq<Request>, manifest: seq<Mapping> := [], [];
    var count := 0;
    group, written := [], [];
    for k := 0 to |lines|
      invariant Malformed !in lines[..k] && UniqueIds(Values(lines[..k])) && seen == IdSet(Values(lines[..k]))
      invariant Files(Values(lines[..k]), requests, manifest, count, group, written, size)
    {
      assert lines[..k + 1] == lines[..k] + [lines[k]];
      ValuesSnoc(lines[..k], lines[k]);
      if lines[k].Malformed? {
        return Err(InvalidLine), group, written;
      }
      if lines[k].Entry? {
        var item := lines[k].value;
        NextValue(lines, k);
        NextItem(lines, k, size);
        if item.id in seen {
          DuplicateStays(Values(lines[..k]), item.id, Values(lines));
          return Err(DuplicateId), group, written;
        }
        UniqueSnoc(Values(lines[..k]), item);
        IdSetSnoc(Values(lines[..k]), item);
        GroupsSnoc(Values(lines[..k]), item, size);
        seen := seen + {item.id};
        requests, manifest, count, group, written :=
          WriteItem(requests, manifest, count, group, size, item, Groups(Values(lines[..k]), size), written);
        if |requests| > MAX_REQUESTS {
          return Err(TooManyRequests), group, written;
        }
      } else {
        assert Values(lines[..k + 1]) == Values(lines[..k]);
      }
    }
    assert lines[..|lines|] == lines;
    return Ok(Prepared(requests, manifest, count)), group, written;
  }

  // The last group, which may be shorter, is written after the loop.
  method WriteLast(files: Prepared, group: seq<Item>, size: nat, ghost items: seq<Item>, ghost written: seq<seq<Item>>) returns (r: Prepared)
    requires Files(items, files.requests, files.manifest, files.items, group, written, size)
    ensures r == Prepared(RequestsFor(Groups(items, size)), ManifestFor(Groups(items, size)), |items|)
    ensures |r.requests| == |Groups(items, size)|
  {
    if group == [] {
      assert written == Groups(items, size);
      return files;
    }
    assert written + [group] == Groups(items, size);
    return Prepared(files.requests + [RequestFor(|files.requests|, group)], files.manifest + [MappingFor(|files.manifest|, group)],
                    files.items + |group|);
  }

  // ---------------------------------------------------------------- what the two files say

  function Inputs(requests: seq<Request>): seq<seq<string>> {
    seq(|requests|, k requires 0 <= k < |requests| => requests[k].input)
  }

  function IdLists(manifest: seq<Mapping>): seq<seq<string>> {
    seq(|manifest|, k requires 0 <= k < |manifest| => manifest[k].ids)
  }

  predicate HasText(items: seq<Item>, id: string, text: string) {
    exists i :: 0 <= i < |items| && items[i].id == id && items[i].text == text
  }

  // Request k and mapping k carry the same custom id and belong together place by place: the input is the text of the
  // item whose id stands at the same place.
  ghost predicate Corresponds(p: Prepared, items: seq<Item>, size: nat, k: nat)
    requires k < |p.requests| && k < |p.manifest|
  {
    var input, ids := p.requests[k].input, p.manifest[k].ids;
    && p.requests[k].custom == p.manifest[k].custom == Numbered(k)
    && |input| == |ids| && 1 <= |ids| <= size
    && forall i :: 0 <= i < |ids| ==> HasText(items, ids[i], input[i])
  }

  // The two files together hold the ids and the texts of all items, in order.
  ghost predicate Describes(p: Prepared, items: seq<Item>, size: nat) {
    && |p.requests| == |p.manifest| && p.items == |items|
    && Flatten(Inputs(p.requests)) == Texts(items) && Flatten(IdLists(p.manifest)) == Ids(items)
    && (forall k :: 0 <= k < |p.requests| ==> Corresponds(p, items, size, k))
    && (forall k :: 0 <= k < |p.requests| - 1 ==> |p.requests[k].input| == size)
  }

  lemma {:induction false} GroupsFlattenToFiles(groups: seq<seq<Item>>)
    ensures Flatten(Inputs(RequestsFor(groups))) == Texts(Flatten(groups))
    ensures Flatten(IdLists(ManifestFor(groups))) == Ids(Flatten(groups))
  {
    if groups != [] {
      var front, last := groups[..|groups| - 1], groups[|groups| - 1];
      GroupsFlattenToFiles(front);
      assert Inputs(RequestsFor(groups)) == Inputs(RequestsFor(front)) + [Texts(last)];
      assert IdLists(ManifestFor(groups)) == IdLists(ManifestFor(front)) + [Ids(last)];
      FlattenSnoc(Inputs(RequestsFor(front)), Texts(last));
      FlattenSnoc(IdLists(ManifestFor(front)), Ids(last));
      assert Texts(Flatten(front) + last) == Texts(Flatten(front)) + Texts(last);
      assert Ids(Flatten(front) + last) == Ids(Flatten(front)) + Ids(last);
    }
  }

  // Every member of a group is a value of the whole.
  lemma {:induction false} GroupMember<T>(groups: seq<seq<T>>, k: nat, i: nat)
    requires k < |groups| && i < |groups[k]|
    ensures groups[k][i] in Flatten(groups)
  {
    if k < |groups| - 1 {
      GroupMember(groups[..|groups| - 1], k, i);
    }
  }

  lemma GroupsCorrespond(items: seq<Item>, groups: seq<seq<Item>>, size: nat, k: nat)
    requires Flatten(groups) == items && Sized(groups, size) && k < |groups|
    ensures Corresponds(Prepared(RequestsFor(groups), ManifestFor(groups), |items|), items, size, k)
  {
    forall i | 0 <= i < |groups[k]| ensures HasText(items, Ids(groups[k])[i], Texts(groups[k])[i]) {
      GroupMember(groups, k, i);
      var j :| 0 <= j < |items| && items[j] == groups[k][i];
    }
  }

  lemma FilesDescribe(items: seq<Item>, size: nat)
    requires size >= 1
    ensures var groups := Groups(items, size);
      Describes(Prepared(RequestsFor(groups), ManifestFor(groups), |items|), items, size)
  {
    var groups := Groups(items, size);
    GroupsPartition(items, size);
    GroupsFlattenToFiles(groups);
    forall k | 0 <= k < |groups| ensures Corresponds(Prepared(RequestsFor(groups), ManifestFor(groups), |items|), items, size, k) {
      GroupsCorrespond(items, groups, size, k);
    }
  }

  method PrepareBatchInput(lines: seq<SourceLine>, maxInputsPerRequest: nat) returns (r: Result<Prepared, Error>)
    ensures r.Ok? <==> Acceptable(lines, maxInputsPerRequest)
    ensures r.Ok? ==> r.value.requests == RequestsFor(Groups(Values(lines), maxInputsPerRequest))
    ensures r.Ok? ==> r.value.manifest == ManifestFor(Groups(Values(lines), maxInputsPerRequest))
    ensures r.Ok? ==> r.value.items == |Values(lines)|
    ensures r.Ok? ==> Describes(r.value, Values(lines), maxInputsPerRequest)
  {
    if maxInputsPerRequest < 1 || maxInputsPerRequest > 1000 {
      return Err(InvalidLimit);
    }
    var files, group, written := WriteGroups(lines, maxInputsPerRequest);
    if files.Err? {
      return files;
    }
    var prepared := WriteLast(files.value, group, maxInputsPerRequest, Values(lines), written);
    if |prepared.requests| > MAX_REQUESTS {
      return Err(TooManyRequests);
    }
    if prepared.items == 0 {
      return Err(NoItems);
    }
    FilesDescribe(Values(lines), maxInputsPerRequest);
    return Ok(prepared);
  }
}
