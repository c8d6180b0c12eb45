/**
  The unwrappers of Lotus forwarding envelopes, versions 4 to 7 (artifact_service/text_processing.py).

  What the regular expressions and the text comparisons say of a line is given by arbitrary functions.
 */
module ForwardingEnvelopes {
  import opened Common

  datatype Tests = Tests(
    marker: string -> bool,            // opens a forwarding separator
    closes: string -> bool,            // ends one
    blank: string -> bool,
    header: string -> bool,
    subject: string -> Option<string>, // the rest of a Subject header
    strip: string -> string,
    joined: seq<string> -> string,     // the parts of a subject as one
    same: (string, string) -> bool,    // equal up to case and spaces
    repeats: (string, string) -> bool) // a body line repeats the subject

  // ---------------------------------------------------------------- indices

  // The first line from i on that closes a separator, or the end.
  function FindClose(lines: seq<string>, t: Tests, i: nat): (r: nat)
    requires i <= |lines|
    ensures i <= r <= |lines| && (r < |lines| ==> t.closes(lines[r])) && forall k :: i <= k < r ==> !t.closes(lines[k])
    decreases |lines| - i
  {
    if i < |lines| && !t.closes(lines[i]) then FindClose(lines, t, i + 1) else i
  }

  // The first line from i on that is not blank, or the end.
  function SkipBlank(lines: seq<string>, t: Tests, i: nat): (r: nat)
    requires i <= |lines|
    ensures i <= r <= |lines| && (r < |lines| ==> !t.blank(lines[r])) && forall k :: i <= k < r ==> t.blank(lines[k])
    decreases |lines| - i
  {
    if i < |lines| && t.blank(lines[i]) then SkipBlank(lines, t, i + 1) else i
  }

  // The first line after the separator that starts at i.
  function AfterSeparator(lines: seq<string>, t: Tests, i: nat, single: bool): (r: nat)
    requires i < |lines|
    ensures i < r <= |lines|
  {
    var open := if single && t.closes(lines[i]) then i + 1
                else var close := FindClose(lines, t, i + 1); if close < |lines| then close + 1 else close;
    SkipBlank(lines, t, open)
  }

  // Version 4: where the body starts, if a group of headers was seen.
  function FindBody(lines: seq<string>, t: Tests, index: nat, scan: nat, saw: bool): (body: Option<nat>)
    requires index <= scan <= |lines|
    ensures body.Some? ==> scan < body.value <= |lines|
    decreases |lines| - scan
  {
    if scan >= |lines| || scan - index >= 50 then None
    else
      var saw' := saw || t.header(lines[scan]);
      if t.blank(lines[scan]) && saw' then
        var next := SkipBlank(lines, t, scan + 1);
        if next < |lines| && t.header(lines[next]) then FindBody(lines, t, index, next, saw') else Some(next)
      else FindBody(lines, t, index, scan + 1, saw')
  }

  // Versions 5 to 7 collect the parts of the subject on the way.
  datatype Scan = Scan(body: Option<nat>, parts: seq<string>)

  function Collect(lines: seq<string>, t: Tests, scan: nat, collecting: bool, parts: seq<string>): (bool, seq<string>)
    requires scan < |lines|
  {
    if t.header(lines[scan]) then
      match t.subject(lines[scan])
      case None => (false, parts)
      case Some(rest) => (true, if rest != "" then [rest] else parts)
    else (collecting, if !t.blank(lines[scan]) && collecting then parts + [t.strip(lines[scan])] else parts)
  }

  function ScanHeaders(lines: seq<string>, t: Tests, index: nat, scan: nat, saw: bool, collecting: bool, parts: seq<string>): Scan
    requires index <= scan <= |lines|
    decreases |lines| - scan
  {
    if scan >= |lines| || scan - index >= 50 then Scan(None, parts)
    else
      var saw' := saw || t.header(lines[scan]);
      var (collecting', parts') := Collect(lines, t, scan, collecting, parts);
      if t.blank(lines[scan]) && saw' then
        var next := SkipBlank(lines, t, scan + 1);
        if next < |lines| && t.header(lines[next]) then ScanHeaders(lines, t, index, next, saw', false, parts')
        else Scan(Some(next), parts')
      else ScanHeaders(lines, t, index, scan + 1, saw', collecting', parts')
  }

  // Collecting the subject does not change where the body starts.
  lemma {:induction false} SameBody(lines: seq<string>, t: Tests, index: nat, scan: nat, saw: bool, collecting: bool, parts: seq<string>)
    requires index <= scan <= |lines|
    ensures ScanHeaders(lines, t, index, scan, saw, collecting, parts).body == FindBody(lines, t, index, scan, saw)
    decreases |lines| - scan
  {
    if scan < |lines| && scan - index < 50 {
      var saw' := saw || t.header(lines[scan]);
      var (collecting', parts') := Collect(lines, t, scan, collecting, parts);
      if t.blank(lines[scan]) && saw' {
        var next := SkipBlank(lines, t, scan + 1);
        if next < |lines| && t.header(lines[next]) {
          SameBody(lines, t, index, next, saw', false, parts');
        }
      } else {
        SameBody(lines, t, index, scan + 1, saw', collecting', parts');
      }
    }
  }

  // ---------------------------------------------------------------- where the body starts

  predicate HeaderSeen(lines: seq<string>, t: Tests, index: nat, end: nat) {
    exists h :: index <= h < end && h < |lines| && t.header(lines[h])
  }

  // Behind some header and a blank line comes a line that is neither blank nor a header, or the end.
  predicate EndsHeaders(lines: seq<string>, t: Tests, index: nat, b: nat) {
    && index < b <= |lines| && t.blank(lines[b - 1])
    && (b < |lines| ==> !t.blank(lines[b]) && !t.header(lines[b]))
    && HeaderSeen(lines, t, index, b)
  }

  // The first such place from the index on.
  ghost predicate IsFirstEnd(lines: seq<string>, t: Tests, index: nat, b: nat) {
    EndsHeaders(lines, t, index, b) && forall c: nat :: c < b ==> !EndsHeaders(lines, t, index, c)
  }

  // The blank lines before b start at s.
  predicate BlanksFrom(lines: seq<string>, t: Tests, index: nat, s: nat, b: nat) {
    && index <= s < b <= |lines| && (forall k :: s <= k < b ==> t.blank(lines[k])) && (s == index || !t.blank(lines[s - 1]))
  }

  // The body starts at the first such place, with its blank lines starting among the first 50 lines.
  ghost predicate IsBody(lines: seq<string>, t: Tests, index: nat, b: nat) {
    IsFirstEnd(lines, t, index, b) && exists s: nat :: BlanksFrom(lines, t, index, s, b) && s < index + 50
  }

  ghost predicate ScanState(lines: seq<string>, t: Tests, index: nat, scan: nat, saw: bool) {
    && index <= scan <= |lines| && (saw <==> HeaderSeen(lines, t, index, scan))
    && (forall c: nat :: c <= scan ==> !EndsHeaders(lines, t, index, c))
    && (saw && scan < |lines| && t.blank(lines[scan]) ==> !t.blank(lines[scan - 1]))
  }

  ghost predicate BlanksAreNoHeaders(t: Tests) {
    forall line :: t.blank(line) ==> !t.header(line)
  }

  lemma ScanPastBlanks(lines: seq<string>, t: Tests, index: nat, scan: nat)
    requires BlanksAreNoHeaders(t) && ScanState(lines, t, index, scan, true) && scan < |lines| && t.blank(lines[scan])
    ensures var next := SkipBlank(lines, t, scan + 1);
      if next < |lines| && t.header(lines[next]) then ScanState(lines, t, index, next, true)
      else IsFirstEnd(lines, t, index, next) && BlanksFrom(lines, t, index, scan, next)
  {
    var next := SkipBlank(lines, t, scan + 1);
    var h :| index <= h < scan && t.header(lines[h]);
    assert HeaderSeen(lines, t, index, next);
    forall c | scan < c < next ensures !EndsHeaders(lines, t, index, c) {
      assert t.blank(lines[c]);
    }
  }

  lemma ScanOneLine(lines: seq<string>, t: Tests, index: nat, scan: nat, saw: bool)
    requires BlanksAreNoHeaders(t) && ScanState(lines, t, index, scan, saw) && scan < |lines|
    requires !(t.blank(lines[scan]) && (saw || t.header(lines[scan])))
    ensures ScanState(lines, t, index, scan + 1, saw || t.header(lines[scan]))
  {
    assert HeaderSeen(lines, t, index, scan + 1) <==> saw || t.header(lines[scan]);
  }

  // The blank lines before the body are still to come.
  lemma BlanksAhead(lines: seq<string>, t: Tests, index: nat, scan: nat, saw: bool, s: nat, b: nat)
    requires BlanksAreNoHeaders(t) && ScanState(lines, t, index, scan, saw)
    requires IsFirstEnd(lines, t, index, b) && BlanksFrom(lines, t, index, s, b)
    ensures s >= scan
  {
    var h :| index <= h < b && h < |lines| && t.header(lines[h]);
    assert h < s;
    assert s < scan ==> HeaderSeen(lines, t, index, scan);
  }

  lemma {:induction false} BodyFound(lines: seq<string>, t: Tests, index: nat, scan: nat, saw: bool)
    requires BlanksAreNoHeaders(t) && ScanState(lines, t, index, scan, saw)
    ensures var body := FindBody(lines, t, index, scan, saw);
      (body.Some? ==> IsBody(lines, t, index, body.value)) && (body == None ==> forall b :: !IsBody(lines, t, index, b))
    decreases |lines| - scan
  {
    if scan >= |lines| {
    } else if scan - index >= 50 {
      forall b, s: nat | IsFirstEnd(lines, t, index, b) && BlanksFrom(lines, t, index, s, b) ensures s >= index + 50 {
        BlanksAhead(lines, t, index, scan, saw, s, b);
      }
    } else if t.blank(lines[scan]) && (saw || t.header(lines[scan])) {
      var next := SkipBlank(lines, t, scan + 1);
      ScanPastBlanks(lines, t, index, scan);
      if next < |lines| && t.header(lines[next]) {
        BodyFound(lines, t, index, next, true);
      }
    } else {
      ScanOneLine(lines, t, index, scan, saw);
      BodyFound(lines, t, index, scan + 1, saw || t.header(lines[scan]));
    }
  }

  // All versions find the body at the first place behind a header and blank lines where neither a header nor a blank
  // line follows, if those blank lines start within 50 lines.
  lemma BodyIs(lines: seq<string>, t: Tests, index: nat, b: nat)
    requires BlanksAreNoHeaders(t) && index <= |lines|
    ensures FindBody(lines, t, index, index, false) == Some(b) <==> IsBody(lines, t, index, b)
  {
    BodyFound(lines, t, index, index, false);
  }

  // The line that closes the separator at `start`.
  predicate ClosesAt(lines: seq<string>, t: Tests, start: nat, single: bool, c: nat)
    requires start < |lines|
  {
    if single && t.closes(lines[start]) then c == start
    else start < c < |lines| && t.closes(lines[c]) && forall k :: start < k < c ==> !t.closes(lines[k])
  }

  // Behind the separator and the blank lines after it; a separator that is not closed takes the rest of the text.
  ghost predicate IsBehind(lines: seq<string>, t: Tests, start: nat, single: bool, r: nat)
    requires start < |lines|
  {
    && start < r <= |lines| && (r < |lines| ==> !t.blank(lines[r]))
    && (forall c: nat :: ClosesAt(lines, t, start, single, c) ==> c < r && forall k: nat :: c < k < r ==> t.blank(lines[k]))
    && ((forall c: nat :: !ClosesAt(lines, t, start, single, c)) ==> r == |lines|)
  }

  lemma AfterSeparatorIs(lines: seq<string>, t: Tests, start: nat, single: bool)
    requires start < |lines|
    ensures IsBehind(lines, t, start, single, AfterSeparator(lines, t, start, single))
  {
    if single && t.closes(lines[start]) {
      assert ClosesAt(lines, t, start, single, start);
    } else {
      var close := FindClose(lines, t, start + 1);
      assert close < |lines| ==> ClosesAt(lines, t, start, single, close);
      forall c: nat | ClosesAt(lines, t, start, single, c) ensures c == close {
      }
    }
  }

  // ---------------------------------------------------------------- the subject of an envelope

  // The lines from k on that go on with the header before them.
  function Continuation(lines: seq<string>, t: Tests, k: nat): seq<string>
    requires k <= |lines|
    decreases |lines| - k
  {
    if k < |lines| && !t.header(lines[k]) && !t.blank(lines[k]) then [t.strip(lines[k])] + Continuation(lines, t, k + 1) else []
  }

  predicate IsSubject(lines: seq<string>, t: Tests, k: nat) {
    k < |lines| && t.header(lines[k]) && t.subject(lines[k]).Some?
  }

  // Between the two lines no Subject header starts.
  predicate NoSubject(lines: seq<string>, t: Tests, from: nat, end: nat) {
    forall k :: from <= k < end ==> !IsSubject(lines, t, k)
  }

  // Nothing is collected while no Subject header has started.
  lemma {:induction false} NothingCollected(lines: seq<string>, t: Tests, index: nat, scan: nat, saw: bool, parts: seq<string>, body: nat)
    requires index <= scan <= |lines| && FindBody(lines, t, index, scan, saw) == Some(body) && NoSubject(lines, t, scan, body)
    ensures ScanHeaders(lines, t, index, scan, saw, false, parts).parts == parts
    decreases |lines| - scan
  {
    var saw' := saw || t.header(lines[scan]);
    assert !IsSubject(lines, t, scan);
    if t.blank(lines[scan]) && saw' {
      var next := SkipBlank(lines, t, scan + 1);
      if next < |lines| && t.header(lines[next]) {
        NothingCollected(lines, t, index, next, saw', parts, body);
      }
    } else {
      NothingCollected(lines, t, index, scan + 1, saw', parts, body);
    }
  }

  // What follows a Subject header is collected up to the next header or blank line.
  lemma {:induction false} FollowingCollected(lines: seq<string>, t: Tests, index: nat, scan: nat, parts: seq<string>, body: nat)
    requires index <= scan <= |lines| && FindBody(lines, t, index, scan, true) == Some(body) && NoSubject(lines, t, scan, body)
    ensures ScanHeaders(lines, t, index, scan, true, true, parts).parts == parts + Continuation(lines, t, scan)
    decreases |lines| - scan
  {
    assert !IsSubject(lines, t, scan);
    assert parts + [] == parts;
    if t.blank(lines[scan]) {
      var next := SkipBlank(lines, t, scan + 1);
      if next < |lines| && t.header(lines[next]) {
        NothingCollected(lines, t, index, next, true, parts, body);
      }
    } else if t.header(lines[scan]) {
      NothingCollected(lines, t, index, scan + 1, true, parts, body);
    } else {
      FollowingCollected(lines, t, index, scan + 1, parts + [t.strip(lines[scan])], body);
      assert parts + ([t.strip(lines[scan])] + Continuation(lines, t, scan + 1)) == parts + [t.strip(lines[scan])] + Continuation(lines, t, scan + 1);
    }
  }

  // Up to its only Subject header a scan collects nothing; from there on it collects that subject.
  lemma {:induction false} SubjectCollected(lines: seq<string>, t: Tests, index: nat, scan: nat, saw: bool, body: nat, h: nat)
    requires index <= scan <= h < |lines| && h < body && FindBody(lines, t, index, scan, saw) == Some(body)
    requires IsSubject(lines, t, h) && t.subject(lines[h]) != Some("") && !t.blank(lines[h])
    requires NoSubject(lines, t, scan, h) && NoSubject(lines, t, h + 1, body)
    ensures ScanHeaders(lines, t, index, scan, saw, false, []).parts == [t.subject(lines[h]).value] + Continuation(lines, t, h + 1)
    decreases |lines| - scan
  {
    if scan == h {
      FollowingCollected(lines, t, index, h + 1, [t.subject(lines[h]).value], body);
    } else {
      assert !IsSubject(lines, t, scan);
      var saw' := saw || t.header(lines[scan]);
      if t.blank(lines[scan]) && saw' {
        SubjectCollected(lines, t, index, SkipBlank(lines, t, scan + 1), saw', body, h);
      } else {
        SubjectCollected(lines, t, index, scan + 1, saw', body, h);
      }
    }
  }

  // ---------------------------------------------------------------- the cuts

  // A line that is kept, a separator without headers after it, or an envelope up to the body.
  datatype Segment = Line(at: nat) | Separator(from: nat, end: nat) | Envelope(from: nat, body: nat, parts: seq<string>)

  function End(segment: Segment): nat {
    match segment
    case Line(at) => at + 1
    case Separator(_, end) => end
    case Envelope(_, body, _) => body
  }

  function Start(segment: Segment): nat {
    match segment
    case Line(at) => at
    case Separator(from, _) => from
    case Envelope(from, _, _) => from
  }

  function SegmentAt(lines: seq<string>, t: Tests, i: nat, single: bool): (segment: Segment)
    requires i < |lines|
    ensures Start(segment) == i < End(segment) <= |lines|
  {
    if !t.marker(lines[i]) then Line(i)
    else
      var next := AfterSeparator(lines, t, i, single);
      var scanned := ScanHeaders(lines, t, next, next, false, false, []);
      SameBody(lines, t, next, next, false, false, []);
      match scanned.body
      case None => Separator(i, next)
      case Some(body) => Envelope(i, body, scanned.parts)
  }

  // The text from line i on, cut into segments.
  function Segments(lines: seq<string>, t: Tests, i: nat, single: bool): seq<Segment>
    requires i <= |lines|
    decreases |lines| - i
  {
    if i == |lines| then []
    else
      var segment := SegmentAt(lines, t, i, single);
      [segment] + Segments(lines, t, End(segment), single)
  }

  // The segments follow each other from line i to the end, without gap or overlap.
  ghost predicate Tiles(segments: seq<Segment>, i: nat, n: nat) {
    if segments == [] then i == n
    else Start(segments[0]) == i < End(segments[0]) <= n && Tiles(segments[1..], End(segments[0]), n)
  }

  lemma {:induction false} SegmentsTile(lines: seq<string>, t: Tests, i: nat, single: bool)
    requires i <= |lines|
    ensures Tiles(Segments(lines, t, i, single), i, |lines|)
    decreases |lines| - i
  {
    if i < |lines| {
      var segment := SegmentAt(lines, t, i, single);
      SegmentsTile(lines, t, End(segment), single);
      assert Segments(lines, t, i, single)[1..] == Segments(lines, t, End(segment), single);
    }
  }

  function Range(from: nat, end: nat): seq<nat>
    requires from <= end
  {
    seq(end - from, k requires 0 <= k < end - from => from + k)
  }

  // The input lines that a segment leaves in the output; versions 6 and 7 drop separators.
  function KeptOf(segment: Segment, dropSeparators: bool): seq<nat> {
    match segment
    case Line(at) => [at]
    case Separator(from, end) => if dropSeparators || end < from then [] else Range(from, end)
    case Envelope(_, _, _) => []
  }

  function Kept(segments: seq<Segment>, dropSeparators: bool): seq<nat> {
    if segments == [] then [] else Kept(segments[..|segments| - 1], dropSeparators) + KeptOf(segments[|segments| - 1], dropSeparators)
  }

  // The number of envelopes removed.
  function Removed(segments: seq<Segment>, dropSeparators: bool): nat {
    if segments == [] then 0
    else
      var last := segments[|segments| - 1];
      Removed(segments[..|segments| - 1], dropSeparators) + if last.Envelope? || (last.Separator? && dropSeparators) then 1 else 0
  }

  function LinesAt(lines: seq<string>, indices: seq<nat>): seq<string>
    requires forall k :: 0 <= k < |indices| ==> indices[k] < |lines|
  {
    seq(|indices|, k requires 0 <= k < |indices| => lines[indices[k]])
  }

  // ---------------------------------------------------------------- the output of versions 5 to 7

  // A line of the output: an input line, or one that was inserted.
  datatype Piece = Input(at: nat) | Inserted(text: string)

  function Text(lines: seq<string>, piece: Piece): string {
    match piece
    case Input(at) => if at < |lines| then lines[at] else ""
    case Inserted(text) => text
  }

  function Render(lines: seq<string>, output: seq<Piece>): seq<string> {
    seq(|output|, k requires 0 <= k < |output| => Text(lines, output[k]))
  }

  // The last line of the output that is not blank.
  function LastLine(t: Tests, output: seq<string>): string {
    if output == [] then ""
    else
      var text := output[|output| - 1];
      if !t.blank(text) then t.strip(text) else LastLine(t, output[..|output| - 1])
  }

  predicate BodyRepeats(lines: seq<string>, t: Tests, subject: string, body: nat) {
    exists k :: body <= k < body + 12 && k < |lines| && t.repeats(lines[k], subject)
  }

  // The subject is kept when neither the text before nor the body shows it.
  function SubjectLines(lines: seq<string>, t: Tests, output: seq<Piece>, subject: string, body: nat): seq<Piece> {
    if subject != "" && !t.same(subject, LastLine(t, Render(lines, output))) && !BodyRepeats(lines, t, subject, body) then
      [Inserted("Subject: " + subject), Inserted("")]
    else []
  }

  function Inputs(indices: seq<nat>): seq<Piece> {
    seq(|indices|, k requires 0 <= k < |indices| => Input(indices[k]))
  }

  function Emit(lines: seq<string>, t: Tests, output: seq<Piece>, segment: Segment, dropSeparators: bool): seq<Piece> {
    match segment
    case Envelope(_, body, parts) => output + SubjectLines(lines, t, output, t.joined(parts), body)
    case _ => output + Inputs(KeptOf(segment, dropSeparators))
  }

  function Output(lines: seq<string>, t: Tests, segments: seq<Segment>, dropSeparators: bool): seq<Piece> {
    if segments == [] then []
    else Emit(lines, t, Output(lines, t, segments[..|segments| - 1], dropSeparators), segments[|segments| - 1], dropSeparators)
  }

  // The input lines among the pieces.
  function InputsOf(output: seq<Piece>): seq<nat> {
    if output == [] then []
    else
      var last := output[|output| - 1];
      InputsOf(output[..|output| - 1]) + if last.Input? then [last.at] else []
  }

  lemma InputsSnoc(output: seq<Piece>, piece: Piece)
    ensures InputsOf(output + [piece]) == InputsOf(output) + if piece.Input? then [piece.at] else []
  {
    assert (output + [piece])[..|output|] == output;
  }

  lemma {:induction false} InputsAppend(output: seq<Piece>, indices: seq<nat>)
    ensures InputsOf(output + Inputs(indices)) == InputsOf(output) + indices
  {
    if indices == [] {
      assert output + Inputs(indices) == output;
    } else {
      var front, last := indices[..|indices| - 1], indices[|indices| - 1];
      InputsAppend(output, front);
      assert output + Inputs(indices) == (output + Inputs(front)) + [Input(last)];
      InputsSnoc(output + Inputs(front), Input(last));
      assert front + [last] == indices;
    }
  }

  // The inserted lines come in pairs: a subject and a blank line.
  ghost predicate PairedInserts(output: seq<Piece>) {
    if output == [] then true
    else
      var n := |output|;
      if output[n - 1].Input? then PairedInserts(output[..n - 1])
      else n >= 2 && output[n - 1] == Inserted("") && output[n - 2].Inserted? && "Subject: " <= output[n - 2].text && PairedInserts(output[..n - 2])
  }

  lemma {:induction false} InputsStayPaired(output: seq<Piece>, indices: seq<nat>)
    requires PairedInserts(output)
    ensures PairedInserts(output + Inputs(indices))
  {
    if indices == [] {
      assert output + Inputs(indices) == output;
    } else {
      var front := indices[..|indices| - 1];
      InputsStayPaired(output, front);
      assert (output + Inputs(indices))[..|output| + |indices| - 1] == output + Inputs(front);
    }
  }

  lemma SubjectStaysPaired(output: seq<Piece>, subject: string)
    requires PairedInserts(output)
    ensures PairedInserts(output + [Inserted("Subject: " + subject), Inserted("")])
    ensures InputsOf(output + [Inserted("Subject: " + subject), Inserted("")]) == InputsOf(output)
  {
    var first, second := Inserted("Subject: " + subject), Inserted("");
    var longer := output + [first, second];
    assert longer[..|longer| - 2] == output;
    assert "Subject: " <= "Subject: " + subject;
    assert longer == (output + [first]) + [second];
    InputsSnoc(output, first);
    InputsSnoc(output + [first], second);
  }

  lemma EmitKeeps(lines: seq<string>, t: Tests, output: seq<Piece>, segment: Segment, dropSeparators: bool)
    requires PairedInserts(output)
    ensures InputsOf(Emit(lines, t, output, segment, dropSeparators)) == InputsOf(output) + KeptOf(segment, dropSeparators)
    ensures PairedInserts(Emit(lines, t, output, segment, dropSeparators))
  {
    match segment
    case Envelope(_, body, parts) =>
      SubjectStaysPaired(output, t.joined(parts));
      assert output + [] == output;
    case _ =>
      InputsAppend(output, KeptOf(segment, dropSeparators));
      InputsStayPaired(output, KeptOf(segment, dropSeparators));
  }

  // Without the inserted pairs, the output is what the cuts keep.
  lemma {:induction false} OutputKeeps(lines: seq<string>, t: Tests, segments: seq<Segment>, dropSeparators: bool)
    ensures InputsOf(Output(lines, t, segments, dropSeparators)) == Kept(segments, dropSeparators)
    ensures PairedInserts(Output(lines, t, segments, dropSeparators))
  {
    if segments != [] {
      var front, last := segments[..|segments| - 1], segments[|segments| - 1];
      OutputKeeps(lines, t, front, dropSeparators);
      EmitKeeps(lines, t, Output(lines, t, front, dropSeparators), last, dropSeparators);
    }
  }

  // ---------------------------------------------------------------- what is kept and counted

  // The segment's lines stay: it is a line by itself, or a separator that is not dropped.
  predicate Stays(segment: Segment, dropSeparators: bool) {
    segment.Line? || (segment.Separator? && !dropSeparators)
  }

  // A line is kept exactly if the segment that it lies in stays.
  lemma {:induction false} KeptExactly(segments: seq<Segment>, dropSeparators: bool, x: nat)
    ensures x in Kept(segments, dropSeparators) <==>
      exists m :: 0 <= m < |segments| && Stays(segments[m], dropSeparators) && Start(segments[m]) <= x < End(segments[m])
  {
    if segments != [] {
      var front, last := segments[..|segments| - 1], segments[|segments| - 1];
      KeptExactly(front, dropSeparators, x);
      KeptOfExactly(last, dropSeparators, x);
      if m :| 0 <= m < |front| && Stays(front[m], dropSeparators) && Start(front[m]) <= x < End(front[m]) {
        assert segments[m] == front[m];
      }
      if m :| 0 <= m < |segments| && Stays(segments[m], dropSeparators) && Start(segments[m]) <= x < End(segments[m]) {
        assert m < |front| ==> segments[m] == front[m];
      }
    }
  }

  lemma KeptOfExactly(segment: Segment, dropSeparators: bool, x: nat)
    ensures x in KeptOf(segment, dropSeparators) <==> Stays(segment, dropSeparators) && Start(segment) <= x < End(segment)
  {
    if segment.Separator? && segment.from <= x < segment.end {
      assert Range(segment.from, segment.end)[x - segment.from] == x;
    }
  }

  function GoneOnes(segments: seq<Segment>, dropSeparators: bool): set<nat> {
    set m | 0 <= m < |segments| && !Stays(segments[m], dropSeparators)
  }

  lemma GoneStep(segments: seq<Segment>, dropSeparators: bool)
    requires segments != []
    ensures var n := |segments| - 1;
      |GoneOnes(segments, dropSeparators)| == |GoneOnes(segments[..n], dropSeparators)| + if Stays(segments[n], dropSeparators) then 0 else 1
  {
    var n := |segments| - 1;
    var front := GoneOnes(segments[..n], dropSeparators);
    assert n !in front;
    if Stays(segments[n], dropSeparators) {
      assert GoneOnes(segments, dropSeparators) == front;
    } else {
      assert GoneOnes(segments, dropSeparators) == front + {n};
    }
  }

  // The count is that of the segments that do not stay.
  lemma {:induction false} RemovedExactly(segments: seq<Segment>, dropSeparators: bool)
    ensures Removed(segments, dropSeparators) == |GoneOnes(segments, dropSeparators)|
  {
    if segments == [] {
      assert GoneOnes(segments, dropSeparators) == {};
    } else {
      RemovedExactly(segments[..|segments| - 1], dropSeparators);
      GoneStep(segments, dropSeparators);
    }
  }

  function LineSegments(i: nat, n: nat): seq<Segment>
    requires i <= n
  {
    seq(n - i, k requires 0 <= k < n - i => Line(i + k))
  }

  lemma {:induction false} PlainSegments(lines: seq<string>, t: Tests, i: nat, single: bool)
    requires i <= |lines| && forall k :: 0 <= k < |lines| ==> !t.marker(lines[k])
    ensures Segments(lines, t, i, single) == LineSegments(i, |lines|)
    decreases |lines| - i
  {
    if i < |lines| {
      PlainSegments(lines, t, i + 1, single);
      assert LineSegments(i, |lines|) == [Line(i)] + LineSegments(i + 1, |lines|);
    }
  }

  lemma {:induction false} PlainOutput(lines: seq<string>, t: Tests, n: nat, dropSeparators: bool)
    requires n <= |lines|
    ensures Render(lines, Output(lines, t, LineSegments(0, n), dropSeparators)) == lines[..n]
    ensures LinesKept(lines, Kept(LineSegments(0, n), dropSeparators), lines[..n])
    ensures Removed(LineSegments(0, n), dropSeparators) == 0
  {
    if n > 0 {
      PlainOutput(lines, t, n - 1, dropSeparators);
      assert LineSegments(0, n)[..n - 1] == LineSegments(0, n - 1);
      assert Inputs([n - 1]) == [Input(n - 1)];
    }
  }

  predicate LinesKept(lines: seq<string>, indices: seq<nat>, output: seq<string>) {
    |output| == |indices| && forall k :: 0 <= k < |indices| ==> indices[k] < |lines| && output[k] == lines[indices[k]]
  }

  // A text without a separator stays as it is, in every version, and nothing is counted.
  lemma PlainTextStays(lines: seq<string>, t: Tests, dropSeparators: bool, single: bool)
    requires forall k :: 0 <= k < |lines| ==> !t.marker(lines[k])
    ensures var segments := Segments(lines, t, 0, single);
      && Render(lines, Output(lines, t, segments, dropSeparators)) == lines
      && LinesKept(lines, Kept(segments, dropSeparators), lines)
      && Removed(segments, dropSeparators) == 0
  {
    PlainSegments(lines, t, 0, single);
    PlainOutput(lines, t, |lines|, dropSeparators);
    assert lines[..|lines|] == lines;
  }

  // ---------------------------------------------------------------- versions compared

  predicate Increasing(indices: seq<nat>) {
    forall i, j :: 0 <= i < j < |indices| ==> indices[i] < indices[j]
  }

  predicate Between(indices: seq<nat>, from: nat, end: nat) {
    forall k :: 0 <= k < |indices| ==> from <= indices[k] < end
  }

  lemma {:induction false} TilesSplit(segments: seq<Segment>, i: nat, n: nat)
    requires segments != [] && Tiles(segments, i, n)
    ensures var front, last := segments[..|segments| - 1], segments[|segments| - 1];
      Tiles(front, i, Start(last)) && i <= Start(last) < End(last) == n
  {
    if |segments| > 1 {
      TilesSplit(segments[1..], End(segments[0]), n);
      var front := segments[..|segments| - 1];
      assert front[1..] == segments[1..][..|segments| - 2];
      assert segments[1..][|segments| - 2] == segments[|segments| - 1];
      TilesOrder(front[1..], End(segments[0]), Start(segments[|segments| - 1]));
    } else {
      assert segments[..0] == [];
    }
  }

  lemma {:induction false} TilesOrder(segments: seq<Segment>, i: nat, n: nat)
    requires Tiles(segments, i, n)
    ensures i <= n && (segments != [] ==> End(segments[0]) <= n)
  {
    if segments != [] {
      TilesOrder(segments[1..], End(segments[0]), n);
    }
  }

  // What is kept are input lines, in order and each once.
  lemma {:induction false} KeptInOrder(segments: seq<Segment>, dropSeparators: bool, i: nat, n: nat)
    requires Tiles(segments, i, n)
    ensures Increasing(Kept(segments, dropSeparators)) && Between(Kept(segments, dropSeparators), i, n)
  {
    if segments != [] {
      TilesSplit(segments, i, n);
      KeptInOrder(segments[..|segments| - 1], dropSeparators, i, Start(segments[|segments| - 1]));
    }
  }

  ghost predicate Subsequence(a: seq<nat>, b: seq<nat>) {
    if a == [] then true
    else if b == [] then false
    else if a[|a| - 1] == b[|b| - 1] then Subsequence(a[..|a| - 1], b[..|b| - 1])
    else Subsequence(a, b[..|b| - 1])
  }

  lemma {:induction false} SubsequenceMore(a: seq<nat>, b: seq<nat>, x: nat)
    requires Subsequence(a, b) && x !in a
    ensures Subsequence(a, b + [x])
  {
    assert (b + [x])[..|b|] == b;
    if a != [] {
      assert a[|a| - 1] in a;
    }
  }

  lemma SubsequenceBoth(a: seq<nat>, b: seq<nat>, x: nat)
    requires Subsequence(a, b)
    ensures Subsequence(a + [x], b + [x])
  {
    assert (a + [x])[..|a|] == a && (b + [x])[..|b|] == b;
  }

  lemma {:induction false} SubsequenceLonger(a: seq<nat>, b: seq<nat>, more: seq<nat>)
    requires Subsequence(a, b) && forall x :: x in more ==> x !in a
    ensures Subsequence(a, b + more)
  {
    if more == [] {
      assert b + more == b;
    } else {
      var front, last := more[..|more| - 1], more[|more| - 1];
      SubsequenceLonger(a, b, front);
      SubsequenceMore(a, b + front, last);
      assert b + more == (b + front) + [last];
    }
  }

  // Dropping the separators keeps a subsequence of what is kept otherwise, and counts them as removed.
  lemma {:induction false} DroppingKeepsLess(segments: seq<Segment>, i: nat, n: nat)
    requires Tiles(segments, i, n)
    ensures Subsequence(Kept(segments, true), Kept(segments, false)) && Removed(segments, false) <= Removed(segments, true)
  {
    if segments != [] {
      var front, last := segments[..|segments| - 1], segments[|segments| - 1];
      TilesSplit(segments, i, n);
      DroppingKeepsLess(front, i, Start(last));
      var less, more := Kept(front, true), Kept(front, false);
      match last {
        case Line(at) =>
          SubsequenceBoth(less, more, at);
        case Envelope(_, _, _) =>
          assert less + [] == less && more + [] == more;
        case Separator(from, end) =>
          KeptInOrder(front, true, i, from);
          forall x | x in Range(from, end) ensures x !in less {
          }
          SubsequenceLonger(less, more, Range(from, end));
          assert less + [] == less;
      }
    }
  }

  // ---------------------------------------------------------------- the loops

  method SkipToBody(lines: seq<string>, t: Tests, start: nat, single: bool) returns (index: nat)
    requires start < |lines|
    ensures index == AfterSeparator(lines, t, start, single)
    ensures IsBehind(lines, t, start, single, index)
  {
    index := start + 1;
    if !(single && t.closes(lines[start])) {
      while index < |lines| && !t.closes(lines[index])
        invariant start < index <= |lines| && FindClose(lines, t, index) == FindClose(lines, t, start + 1)
        decreases |lines| - index
      {
        index := index + 1;
      }
      if index < |lines| {
        index := index + 1;
      }
    }
    ghost var open := index;
    while index < |lines| && t.blank(lines[index])
      invariant open <= index <= |lines| && SkipBlank(lines, t, index) == SkipBlank(lines, t, open)
      decreases |lines| - index
    {
      index := index + 1;
    }
    AfterSeparatorIs(lines, t, start, single);
  }

  method NextNonblank(lines: seq<string>, t: Tests, start: nat) returns (index: nat)
    requires start <= |lines|
    ensures index == SkipBlank(lines, t, start)
  {
    index := start;
    while index < |lines| && t.blank(lines[index])
      invariant start <= index <= |lines| && SkipBlank(lines, t, index) == SkipBlank(lines, t, start)
      decreases |lines| - index
    {
      index := index + 1;
    }
  }

  // The scan for the body in version 4.
  method ScanForBody(lines: seq<string>, t: Tests, index: nat) returns (body: Option<nat>)
    requires index <= |lines|
    ensures body == FindBody(lines, t, index, index, false)
  {
    var scan, saw := index, false;
    while scan < |lines| && scan - index < 50
      invariant index <= scan <= |lines| && FindBody(lines, t, index, scan, saw) == FindBody(lines, t, index, index, false)
      decreases |lines| - scan
    {
      if t.header(lines[scan]) {
        saw := true;
      }
      if t.blank(lines[scan]) && saw {
        var next := NextNonblank(lines, t, scan + 1);
        if next < |lines| && t.header(lines[next]) {
          scan := next;
          continue;
        }
        return Some(next);
      }
      scan := scan + 1;
    }
    return None;
  }

  // The scan for the body and the subject in versions 5 to 7.
  method ScanWithSubject(lines: seq<string>, t: Tests, index: nat) returns (scanned: Scan)
    requires index <= |lines|
    ensures scanned == ScanHeaders(lines, t, index, index, false, false, [])
  {
    var scan, saw, collecting := index, false, false;
    var parts: seq<string> := [];
    while scan < |lines| && scan - index < 50
      invariant index <= scan <= |lines|
      invariant ScanHeaders(lines, t, index, scan, saw, collecting, parts) == ScanHeaders(lines, t, index, index, false, false, [])
      decreases |lines| - scan
    {
      if t.header(lines[scan]) {
        saw := true;
        var subject := t.subject(lines[scan]);
        collecting := subject.Some?;
        if subject.Some? && subject.value != "" {
          parts := [subject.value];
        }
      } else if !t.blank(lines[scan]) && collecting {
        parts := parts + [t.strip(lines[scan])];
      }
      if t.blank(lines[scan]) && saw {
        collecting := false;
        var next := NextNonblank(lines, t, scan + 1);
        if next < |lines| && t.header(lines[next]) {
          scan := next;
          continue;
        }
        return Scan(Some(next), parts);
      }
      scan := scan + 1;
    }
    return Scan(None, parts);
  }

  // From an opening marker to the body, as far as there is one.
  method ReadEnvelope(lines: seq<string>, t: Tests, start: nat, single: bool) returns (index: nat, scanned: Scan)
    requires start < |lines| && t.marker(lines[start])
    ensures start < index <= |lines|
    ensures SegmentAt(lines, t, start, single) ==
      match scanned.body case None => Separator(start, index) case Some(body) => Envelope(start, body, scanned.parts)
  {
    index := SkipToBody(lines, t, start, single);
    scanned := ScanWithSubject(lines, t, index);
    SameBody(lines, t, index, index, false, false, []);
  }

  lemma ConsShifts(done: seq<Segment>, segment: Segment, rest: seq<Segment>)
    ensures done + ([segment] + rest) == done + [segment] + rest
  {
  }

  lemma OneSegment(lines: seq<string>, t: Tests, done: seq<Segment>, i: nat, single: bool)
    requires i < |lines| && done + Segments(lines, t, i, single) == Segments(lines, t, 0, single)
    ensures var segment := SegmentAt(lines, t, i, single);
      done + [segment] + Segments(lines, t, End(segment), single) == Segments(lines, t, 0, single)
  {
    var segment := SegmentAt(lines, t, i, single);
    ConsShifts(done, segment, Segments(lines, t, End(segment), single));
  }

  lemma SegmentsSnoc(done: seq<Segment>, segment: Segment, dropSeparators: bool)
    ensures Kept(done + [segment], dropSeparators) == Kept(done, dropSeparators) + KeptOf(segment, dropSeparators)
    ensures Removed(done + [segment], dropSeparators)
      == Removed(done, dropSeparators) + if segment.Envelope? || (segment.Separator? && dropSeparators) then 1 else 0
  {
    assert (done + [segment])[..|done|] == done;
  }

  lemma LinesOfRange(lines: seq<string>, from: nat, end: nat)
    requires from <= end <= |lines|
    ensures LinesAt(lines, Range(from, end)) == lines[from..end]
  {
  }

  lemma LinesAppend(lines: seq<string>, a: seq<nat>, b: seq<nat>)
    requires Between(a, 0, |lines|) && Between(b, 0, |lines|)
    ensures Between(a + b, 0, |lines|) && LinesAt(lines, a + b) == LinesAt(lines, a) + LinesAt(lines, b)
  {
  }

  // The output of version 4 after some segments.
  ghost predicate Written4(lines: seq<string>, done: seq<Segment>, output: seq<string>, count: nat) {
    Between(Kept(done, false), 0, |lines|) && output == LinesAt(lines, Kept(done, false)) && count == Removed(done, false)
  }

  lemma Write4(lines: seq<string>, done: seq<Segment>, output: seq<string>, count: nat, segment: Segment)
    requires Written4(lines, done, output, count) && Start(segment) < End(segment) <= |lines|
    ensures match segment
      case Line(at) => Written4(lines, done + [segment], output + [lines[at]], count)
      case Separator(from, end) => Written4(lines, done + [segment], output + lines[from..end], count)
      case Envelope(_, _, _) => Written4(lines, done + [segment], output, count + 1)
  {
    SegmentsSnoc(done, segment, false);
    LinesAppend(lines, Kept(done, false), KeptOf(segment, false));
    match segment
    case Line(at) => assert LinesAt(lines, [at]) == [lines[at]];
    case Separator(from, end) => LinesOfRange(lines, from, end);
    case Envelope(_, _, _) => assert output + [] == output;
  }

  // _remove_lotus_forwarding_envelopes_v4
  method Unwrap4(lines: seq<string>, t: Tests) returns (output: seq<string>, count: nat)
    ensures var segments := Segments(lines, t, 0, false);
      Between(Kept(segments, false), 0, |lines|) && output == LinesAt(lines, Kept(segments, false)) && count == Removed(segments, false)
  {
    output, count := [], 0;
    var index := 0;
    ghost var done: seq<Segment> := [];
    while index < |lines|
      invariant index <= |lines| && done + Segments(lines, t, index, false) == Segments(lines, t, 0, false)
      invariant Written4(lines, done, output, count)
      decreases |lines| - index
    {
      ghost var segment := SegmentAt(lines, t, index, false);
      OneSegment(lines, t, done, index, false);
      Write4(lines, done, output, count, segment);
      done := done + [segment];
      if !t.marker(lines[index]) {
        output := output + [lines[index]];
        index := index + 1;
        continue;
      }
      var start := index;
      index := SkipToBody(lines, t, start, false);
      SameBody(lines, t, index, index, false, false, []);
      var body := ScanForBody(lines, t, index);
      if body == None {
        output := output + lines[start..index];
        continue;
      }
      index := body.value;
      count := count + 1;
    }
    assert done + [] == done;
  }

  lemma RenderInputs(lines: seq<string>, indices: seq<nat>)
    requires Between(indices, 0, |lines|)
    ensures Render(lines, Inputs(indices)) == LinesAt(lines, indices)
  {
  }

  lemma RenderAppend(lines: seq<string>, a: seq<Piece>, b: seq<Piece>)
    ensures Render(lines, a + b) == Render(lines, a) + Render(lines, b)
  {
  }

  // The output of version 5 to 7 after some segments.
  ghost predicate Written5(lines: seq<string>, t: Tests, done: seq<Segment>, output: seq<string>, count: nat, dropSeparators: bool) {
    output == Render(lines, Output(lines, t, done, dropSeparators)) && count == Removed(done, dropSeparators)
  }

  function SubjectText(t: Tests, output: seq<string>, lines: seq<string>, subject: string, body: nat): seq<string> {
    if subject != "" && !t.same(subject, LastLine(t, output)) && !BodyRepeats(lines, t, subject, body) then ["Subject: " + subject, ""] else []
  }

  lemma Write5(lines: seq<string>, t: Tests, done: seq<Segment>, output: seq<string>, count: nat, segment: Segment, dropSeparators: bool)
    requires Written5(lines, t, done, output, count, dropSeparators) && Start(segment) < End(segment) <= |lines|
    ensures match segment
      case Line(at) => Written5(lines, t, done + [segment], output + [lines[at]], count, dropSeparators)
      case Separator(from, end) =>
        if dropSeparators then Written5(lines, t, done + [segment], output, count + 1, dropSeparators)
        else Written5(lines, t, done + [segment], output + lines[from..end], count, dropSeparators)
      case Envelope(_, body, parts) =>
        Written5(lines, t, done + [segment], output + SubjectText(t, output, lines, t.joined(parts), body), count + 1, dropSeparators)
  {
    var pieces := Output(lines, t, done, dropSeparators);
    assert (done + [segment])[..|done|] == done;
    SegmentsSnoc(done, segment, dropSeparators);
    match segment
    case Line(at) =>
      RenderAppend(lines, pieces, Inputs([at]));
      assert Render(lines, Inputs([at])) == [lines[at]];
    case Separator(from, end) =>
      RenderAppend(lines, pieces, Inputs(KeptOf(segment, dropSeparators)));
      RenderInputs(lines, Range(from, end));
      LinesOfRange(lines, from, end);
      assert output + [] == output && Render(lines, Inputs([])) == [];
    case Envelope(_, body, parts) =>
      RenderAppend(lines, pieces, SubjectLines(lines, t, pieces, t.joined(parts), body));
      assert Render(lines, SubjectLines(lines, t, pieces, t.joined(parts), body)) == SubjectText(t, output, lines, t.joined(parts), body);
  }

  // Nothing but blank lines comes after line k.
  predicate IsLastFull(t: Tests, output: seq<string>, k: nat) {
    k < |output| && !t.blank(output[k]) && forall j :: k < j < |output| ==> t.blank(output[j])
  }

  lemma {:induction false} LastLineIs(t: Tests, output: seq<string>)
    ensures forall k: nat :: IsLastFull(t, output, k) ==> LastLine(t, output) == t.strip(output[k])
    ensures (forall k :: 0 <= k < |output| ==> t.blank(output[k])) ==> LastLine(t, output) == ""
  {
    if output != [] && t.blank(output[|output| - 1]) {
      LastLineIs(t, output[..|output| - 1]);
      forall k: nat | IsLastFull(t, output, k) ensures IsLastFull(t, output[..|output| - 1], k) {
      }
    }
  }

  method LastOutputLine(t: Tests, output: seq<string>) returns (last: string)
    ensures last == LastLine(t, output)
    ensures forall k: nat :: IsLastFull(t, output, k) ==> last == t.strip(output[k])
    ensures (forall k :: 0 <= k < |output| ==> t.blank(output[k])) ==> last == ""
  {
    LastLineIs(t, output);
    var k := |output|;
    assert output[..k] == output;
    while k > 0
      invariant 0 <= k <= |output| && LastLine(t, output[..k]) == LastLine(t, output)
    {
      assert output[..k][..k - 1] == output[..k - 1];
      if !t.blank(output[k - 1]) {
        return t.strip(output[k - 1]);
      }
      k := k - 1;
    }
    return "";
  }

  method BodyRepeatsSubject(lines: seq<string>, t: Tests, subject: string, body: nat) returns (repeats: bool)
    ensures repeats == BodyRepeats(lines, t, subject, body)
  {
    var k := body;
    while k < body + 12 && k < |lines|
      invariant body <= k && forall j :: body <= j < k ==> j < |lines| && !t.repeats(lines[j], subject)
      decreases |lines| - k
    {
      if t.repeats(lines[k], subject) {
        return true;
      }
      k := k + 1;
    }
    return false;
  }

  method KeepSubject(lines: seq<string>, t: Tests, output: seq<string>, subject: string, body: nat) returns (after: seq<string>)
    ensures after == output + SubjectText(t, output, lines, subject, body)
  {
    var last := LastOutputLine(t, output);
    var repeats := BodyRepeatsSubject(lines, t, subject, body);
    if subject != "" && !t.same(subject, last) && !repeats {
      return output + ["Subject: " + subject] + [""];
    }
    return output;
  }

  // One separator, with the headers that follow it if there are any.
  method UnwrapOne5(lines: seq<string>, t: Tests, start: nat, dropSeparators: bool, single: bool, output: seq<string>, count: nat,
                    ghost done: seq<Segment>)
    returns (output': seq<string>, count': nat, index: nat)
    requires start < |lines| && t.marker(lines[start]) && Written5(lines, t, done, output, count, dropSeparators)
    ensures Written5(lines, t, done + [SegmentAt(lines, t, start, single)], output', count', dropSeparators)
    ensures index == End(SegmentAt(lines, t, start, single))
  {
    Write5(lines, t, done, output, count, SegmentAt(lines, t, start, single), dropSeparators);
    var scanned;
    index, scanned := ReadEnvelope(lines, t, start, single);
    if scanned.body == None {
      if dropSeparators {
        return output, count + 1, index;
      }
      return output + lines[start..index], count, index;
    }
    output' := KeepSubject(lines, t, output, t.joined(scanned.parts), scanned.body.value);
    return output', count + 1, scanned.body.value;
  }

  // _remove_lotus_forwarding_envelopes_v5, and with its flags versions 6 and 7
  method Unwrap5(lines: seq<string>, t: Tests, dropSeparators: bool, single: bool) returns (output: seq<string>, count: nat)
    ensures var segments := Segments(lines, t, 0, single);
      output == Render(lines, Output(lines, t, segments, dropSeparators)) && count == Removed(segments, dropSeparators)
  {
    output, count := [], 0;
    var index := 0;
    ghost var done: seq<Segment> := [];
    while index < |lines|
      invariant index <= |lines| && done + Segments(lines, t, index, single) == Segments(lines, t, 0, single)
      invariant Written5(lines, t, done, output, count, dropSeparators)
      decreases |lines| - index
    {
      ghost var segment := SegmentAt(lines, t, index, single);
      OneSegment(lines, t, done, index, single);
      if t.marker(lines[index]) {
        output, count, index := UnwrapOne5(lines, t, index, dropSeparators, single, output, count, done);
      } else {
        Write5(lines, t, done, output, count, segment, dropSeparators);
        output := output + [lines[index]];
        index := index + 1;
      }
      done := done + [segment];
    }
    assert done + [] == done;
  }

  // ---------------------------------------------------------------- the subject that is left

  lemma {:induction false} OutputGrows(lines: seq<string>, t: Tests, segments: seq<Segment>, m: nat, dropSeparators: bool)
    requires m <= |segments|
    ensures Output(lines, t, segments[..m], dropSeparators) <= Output(lines, t, segments, dropSeparators)
  {
    if m < |segments| {
      var front := segments[..|segments| - 1];
      OutputGrows(lines, t, front, m, dropSeparators);
      assert front[..m] == segments[..m];
    } else {
      assert segments[..m] == segments;
    }
  }

  // The cut at m is an envelope, and h is the only line of its headers that starts a subject, which is not empty.
  ghost predicate HasLoneSubject(lines: seq<string>, t: Tests, segment: Segment, single: bool, h: nat) {
    && segment.Envelope? && segment.from < |lines| && AfterSeparator(lines, t, segment.from, single) <= h < segment.body <= |lines|
    && IsSubject(lines, t, h) && t.subject(lines[h]) != Some("") && !t.blank(lines[h])
    && NoSubject(lines, t, AfterSeparator(lines, t, segment.from, single), h) && NoSubject(lines, t, h + 1, segment.body)
  }

  // Neither the last line of the output so far nor one of the first twelve lines of the body shows the subject.
  ghost predicate IsShownElsewhere(lines: seq<string>, t: Tests, before: seq<string>, subject: string, body: nat) {
    || t.same(subject, LastLine(t, before))
    || exists k :: body <= k < body + 12 && k < |lines| && t.repeats(lines[k], subject)
  }

  lemma LoneSubjectIs(lines: seq<string>, t: Tests, segment: Segment, single: bool, h: nat)
    requires HasLoneSubject(lines, t, segment, single, h) && segment == SegmentAt(lines, t, segment.from, single)
    ensures segment.parts == [t.subject(lines[h]).value] + Continuation(lines, t, h + 1)
  {
    var next := AfterSeparator(lines, t, segment.from, single);
    SameBody(lines, t, next, next, false, false, []);
    SubjectCollected(lines, t, next, next, false, segment.body, h);
  }

  lemma {:induction false} SegmentsAreCut(lines: seq<string>, t: Tests, i: nat, single: bool, m: nat)
    requires i <= |lines| && m < |Segments(lines, t, i, single)|
    ensures var segment := Segments(lines, t, i, single)[m]; Start(segment) < |lines| && segment == SegmentAt(lines, t, Start(segment), single)
    decreases |lines| - i
  {
    if m > 0 {
      SegmentsAreCut(lines, t, End(SegmentAt(lines, t, i, single)), single, m - 1);
    }
  }

  lemma SubjectIsEmitted(lines: seq<string>, t: Tests, before: seq<Piece>, segment: Segment, dropSeparators: bool, subject: string)
    requires segment.Envelope? && subject == t.joined(segment.parts) && subject != ""
    requires !IsShownElsewhere(lines, t, Render(lines, before), subject, segment.body)
    ensures Emit(lines, t, before, segment, dropSeparators) == before + [Inserted("Subject: " + subject), Inserted("")]
  {
    assert !BodyRepeats(lines, t, subject, segment.body);
  }

  // The subject and an empty line stand at place n of the text.
  predicate SubjectAt(text: seq<string>, n: nat, subject: string) {
    n + 1 < |text| && text[n] == "Subject: " + subject && text[n + 1] == ""
  }

  lemma RenderedSubject(lines: seq<string>, before: seq<Piece>, output: seq<Piece>, subject: string)
    requires before + [Inserted("Subject: " + subject), Inserted("")] <= output
    ensures SubjectAt(Render(lines, output), |before|, subject)
  {
    var upto := before + [Inserted("Subject: " + subject), Inserted("")];
    assert output[|before|] == upto[|before|] && output[|before| + 1] == upto[|before| + 1];
  }

  lemma SubjectIsInserted(lines: seq<string>, t: Tests, segments: seq<Segment>, m: nat, dropSeparators: bool, subject: string)
    requires m < |segments| && segments[m].Envelope? && subject == t.joined(segments[m].parts) && subject != ""
    requires !IsShownElsewhere(lines, t, Render(lines, Output(lines, t, segments[..m], dropSeparators)), subject, segments[m].body)
    ensures SubjectAt(Render(lines, Output(lines, t, segments, dropSeparators)), |Output(lines, t, segments[..m], dropSeparators)|, subject)
  {
    var before := Output(lines, t, segments[..m], dropSeparators);
    assert segments[..m + 1][..m] == segments[..m];
    SubjectIsEmitted(lines, t, before, segments[m], dropSeparators, subject);
    OutputGrows(lines, t, segments, m + 1, dropSeparators);
    RenderedSubject(lines, before, Output(lines, t, segments, dropSeparators), subject);
  }

  // An envelope with a single subject in its headers leaves that subject in the output, behind what comes before the
  // envelope, unless it is shown elsewhere.
  lemma LoneSubjectIsLeft(lines: seq<string>, t: Tests, dropSeparators: bool, single: bool, segments: seq<Segment>, m: nat, h: nat, subject: string)
    requires segments == Segments(lines, t, 0, single) && m < |segments| && HasLoneSubject(lines, t, segments[m], single, h)
    requires subject == t.joined([t.subject(lines[h]).value] + Continuation(lines, t, h + 1)) && subject != ""
    requires !IsShownElsewhere(lines, t, Render(lines, Output(lines, t, segments[..m], dropSeparators)), subject, segments[m].body)
    ensures SubjectAt(Render(lines, Output(lines, t, segments, dropSeparators)), |Output(lines, t, segments[..m], dropSeparators)|, subject)
  {
    SegmentsAreCut(lines, t, 0, single, m);
    LoneSubjectIs(lines, t, segments[m], single, h);
    SubjectIsInserted(lines, t, segments, m, dropSeparators, subject);
  }

  // Version 4 keeps input lines in order.  Version 5 makes the same cuts, removes as many envelopes, and adds
  // nothing but pairs of a subject and a blank line.  Version 6 keeps some of the input lines that version 5
  // keeps, in the same order, and counts no fewer envelopes.
  lemma VersionsAgree(lines: seq<string>, t: Tests)
    ensures var segments := Segments(lines, t, 0, false);
      var output5, output6 := Output(lines, t, segments, false), Output(lines, t, segments, true);
      && Increasing(Kept(segments, false)) && Between(Kept(segments, false), 0, |lines|)
      && InputsOf(output5) == Kept(segments, false) && PairedInserts(output5)
      && PairedInserts(output6) && Subsequence(InputsOf(output6), InputsOf(output5))
      && Removed(segments, false) <= Removed(segments, true)
  {
    var segments := Segments(lines, t, 0, false);
    SegmentsTile(lines, t, 0, false);
    KeptInOrder(segments, false, 0, |lines|);
    OutputKeeps(lines, t, segments, false);
    OutputKeeps(lines, t, segments, true);
    DroppingKeepsLess(segments, 0, |lines|);
  }

  // Version 7 cuts elsewhere; it too keeps input lines in order and adds pairs only.
  lemma LastVersionKeepsOrder(lines: seq<string>, t: Tests)
    ensures var output := Output(lines, t, Segments(lines, t, 0, true), true);
      Increasing(InputsOf(output)) && Between(InputsOf(output), 0, |lines|) && PairedInserts(output)
  {
    var segments := Segments(lines, t, 0, true);
    SegmentsTile(lines, t, 0, true);
    KeptInOrder(segments, true, 0, |lines|);
    OutputKeeps(lines, t, segments, true);
  }
}
