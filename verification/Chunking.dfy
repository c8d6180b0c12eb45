/**
  The overlapping chunker of app/embeddings/chunking.py.

  Positions are code-point offsets into the text.  The sentence and paragraph pattern is
  abstracted to `cuts`: any sorted list of match ends.  A chunk identifier is the string the
  program hashes, kept as its four parts, so that hashing is injective.
 */
module Chunking {
  import opened Common

  datatype Span = Span(start: nat, end: nat)

  datatype ChunkId = ChunkId(sourceHash: string, ordinal: nat, start: nat, end: nat)

  datatype TextChunk = TextChunk(id: ChunkId, ordinal: nat, charStart: nat, charEnd: nat, text: string)

  datatype ChunkError = TargetExceedsMaximum

  // The characters for which Python's str.isspace holds.
  predicate IsSpace(c: char) {
    var n := c as int;
    || 9 <= n <= 13 || 28 <= n <= 32 || n == 0x85 || n == 0xA0 || n == 0x1680
    || 0x2000 <= n <= 0x200A || n == 0x2028 || n == 0x2029 || n == 0x202F || n == 0x205F || n == 0x3000
  }

  function LeftStrip(s: string): string {
    if s != [] && IsSpace(s[0]) then LeftStrip(s[1..]) else s
  }

  function RightStrip(s: string): string {
    if s != [] && IsSpace(s[|s| - 1]) then RightStrip(s[..|s| - 1]) else s
  }

  function Strip(s: string): string {
    RightStrip(LeftStrip(s))
  }

  // ---------------------------------------------------------------- trimming a span

  predicate Blank(text: string, start: nat, end: nat)
    requires end <= |text|
  {
    forall p :: start <= p < end ==> IsSpace(text[p])
  }

  predicate Trimmed(text: string, s: Span) {
    && s.start < s.end <= |text|
    && !IsSpace(text[s.start]) && !IsSpace(text[s.end - 1])
  }

  // `r` is what is left of [start, end) once the white space at both ends is gone.
  predicate IsTrim(text: string, start: nat, end: nat, r: Option<Span>)
    requires start <= end <= |text|
  {
    match r
    case None => Blank(text, start, end)
    case Some(s) => start <= s.start && s.end <= end && Trimmed(text, s) && Blank(text, start, s.start) && Blank(text, s.end, end)
  }

  function Trim(text: string, start: nat, end: nat): (r: Option<Span>)
    requires start <= end <= |text|
    ensures IsTrim(text, start, end, r)
    decreases end - start
  {
    if start == end then None
    else if IsSpace(text[start]) then Trim(text, start + 1, end)
    else if IsSpace(text[end - 1]) then Trim(text, start, end - 1)
    else Some(Span(start, end))
  }

  // A span has one trimmed part.
  lemma TrimIsUnique(text: string, start: nat, end: nat, r: Option<Span>)
    requires start <= end <= |text| && IsTrim(text, start, end, r)
    ensures r == Trim(text, start, end)
  {
    var t := Trim(text, start, end);
    if r.Some? && t.Some? {
      assert r.value.start <= t.value.start <= r.value.start;
      assert r.value.end - 1 <= t.value.end - 1 <= r.value.end - 1;
    }
  }

  method NonemptySpan(text: string, lo: nat, hi: nat) returns (r: Option<Span>)
    requires lo <= hi <= |text|
    ensures r == Trim(text, lo, hi)
    ensures IsTrim(text, lo, hi, r)
  {
    var start, end := lo, hi;
    while start < end && IsSpace(text[start])
      invariant lo <= start <= end && Blank(text, lo, start)
    {
      start := start + 1;
    }
    while end > start && IsSpace(text[end - 1])
      invariant start <= end <= hi && Blank(text, end, hi)
      invariant start < end ==> !IsSpace(text[start])
    {
      end := end - 1;
    }
    r := if start < end then Some(Span(start, end)) else None;
    TrimIsUnique(text, lo, hi, r);
  }

  // ---------------------------------------------------------------- units

  predicate InSome(spans: seq<Span>, p: nat) {
    exists k :: 0 <= k < |spans| && spans[k].start <= p < spans[k].end
  }

  predicate Covers(text: string, spans: seq<Span>, lo: nat, hi: nat)
    requires hi <= |text|
  {
    forall p :: lo <= p < hi && !IsSpace(text[p]) ==> InSome(spans, p)
  }

  // Span j ends before span k starts.
  predicate Before(spans: seq<Span>, j: nat, k: nat) {
    j < k < |spans| ==> spans[j].end <= spans[k].start
  }

  // Trimmed, disjoint, in text order, inside [lo, hi) and none longer than `max`.
  ghost predicate UnitsWithin(text: string, spans: seq<Span>, lo: nat, hi: nat, max: int) {
    && (forall k :: 0 <= k < |spans| ==>
          Trimmed(text, spans[k]) && lo <= spans[k].start && spans[k].end <= hi && spans[k].end - spans[k].start <= max)
    && (forall j: nat, k: nat :: Before(spans, j, k))
  }

  function AsUnits(r: Option<Span>): seq<Span> {
    if r.Some? then [r.value] else []
  }

  // str.rfind(" ", from, to)
  function LastBlank(text: string, lo: nat, hi: nat): (r: int)
    requires hi <= |text|
    ensures r == -1 || (lo <= r < hi && text[r] == ' ')
    ensures forall p :: lo <= p < hi && p > r ==> text[p] != ' '
    decreases hi
  {
    if hi <= lo then -1
    else if text[hi - 1] == ' ' then hi - 1
    else LastBlank(text, lo, hi - 1)
  }

  predicate NoBlank(text: string, lo: nat, hi: nat)
    requires hi <= |text|
  {
    forall p :: lo <= p < hi ==> text[p] != ' '
  }

  // Where the next piece of an over-long span ends: at the last blank in reach, or in full if there is none.
  function PieceEnd(text: string, cursor: nat, end: nat, max: nat): (r: nat)
    requires max >= 1 && end <= |text| && end - cursor > max
    ensures cursor < r <= cursor + max
    ensures text[r] == ' ' ==> NoBlank(text, r + 1, cursor + max + 1)
    ensures text[r] != ' ' ==> r == cursor + max && NoBlank(text, cursor + 1, cursor + max + 1)
  {
    var boundary := LastBlank(text, cursor, cursor + max + 1);
    if boundary <= cursor then cursor + max else boundary
  }

  function SplitFrom(text: string, cursor: nat, end: nat, max: nat): seq<Span>
    requires max >= 1 && cursor <= end <= |text|
    decreases end - cursor
  {
    if end - cursor > max then
      var boundary := PieceEnd(text, cursor, end, max);
      AsUnits(Trim(text, cursor, boundary)) + SplitFrom(text, boundary, end, max)
    else AsUnits(Trim(text, cursor, end))
  }

  lemma JoinCovers(text: string, a: seq<Span>, b: seq<Span>, lo: nat, mid: nat, hi: nat)
    requires lo <= mid <= hi <= |text|
    requires Covers(text, a, lo, mid) && Covers(text, b, mid, hi)
    ensures Covers(text, a + b, lo, hi)
  {
    forall p | lo <= p < hi && !IsSpace(text[p]) ensures InSome(a + b, p) {
      if p < mid {
        assert InSome(a, p);
        var k :| 0 <= k < |a| && a[k].start <= p < a[k].end;
        assert (a + b)[k] == a[k];
      } else {
        assert InSome(b, p);
        var k :| 0 <= k < |b| && b[k].start <= p < b[k].end;
        assert (a + b)[|a| + k] == b[k];
      }
    }
  }

  lemma JoinUnits(text: string, a: seq<Span>, b: seq<Span>, lo: nat, mid: nat, hi: nat, max: int)
    requires lo <= mid <= hi <= |text|
    requires UnitsWithin(text, a, lo, mid, max) && UnitsWithin(text, b, mid, hi, max)
    ensures UnitsWithin(text, a + b, lo, hi, max)
  {
    var c := a + b;
    forall k | 0 <= k < |c|
      ensures Trimmed(text, c[k]) && lo <= c[k].start && c[k].end <= hi && c[k].end - c[k].start <= max
    {
      assert c[k] == if k < |a| then a[k] else b[k - |a|];
    }
    forall j: nat, k: nat ensures Before(c, j, k) {
      if j < k < |c| {
        assert c[j] == if j < |a| then a[j] else b[j - |a|];
        assert c[k] == if k < |a| then a[k] else b[k - |a|];
        assert k < |a| ==> Before(a, j, k);
        assert |a| <= j ==> Before(b, j - |a|, k - |a|);
      }
    }
  }

  lemma TrimmedUnit(text: string, lo: nat, hi: nat, max: int)
    requires lo <= hi <= |text| && hi - lo <= max
    ensures UnitsWithin(text, AsUnits(Trim(text, lo, hi)), lo, hi, max)
    ensures Covers(text, AsUnits(Trim(text, lo, hi)), lo, hi)
  {
    var t := Trim(text, lo, hi);
    forall p | lo <= p < hi && !IsSpace(text[p]) ensures InSome(AsUnits(t), p) {
      assert AsUnits(t)[0] == t.value;
    }
  }

  // Long-span splitting gives ordered disjoint pieces of at most `max` characters and loses only white space.
  lemma {:induction false} SplitIsSound(text: string, cursor: nat, end: nat, max: nat)
    requires max >= 1 && cursor <= end <= |text|
    ensures UnitsWithin(text, SplitFrom(text, cursor, end, max), cursor, end, max)
    ensures Covers(text, SplitFrom(text, cursor, end, max), cursor, end)
    decreases end - cursor
  {
    if end - cursor > max {
      var boundary := PieceEnd(text, cursor, end, max);
      TrimmedUnit(text, cursor, boundary, max);
      SplitIsSound(text, boundary, end, max);
      var first, rest := AsUnits(Trim(text, cursor, boundary)), SplitFrom(text, boundary, end, max);
      JoinUnits(text, first, rest, cursor, boundary, end, max);
      JoinCovers(text, first, rest, cursor, boundary, end);
    } else {
      TrimmedUnit(text, cursor, end, max);
    }
  }

  // The piece ends where white space or the span ends, or no blank lies behind its first character.
  predicate EndsWell(text: string, s: Span, end: nat) {
    s.start < s.end <= end <= |text| && (s.end == end || IsSpace(text[s.end]) || NoBlank(text, s.start + 1, s.end + 1))
  }

  lemma PieceEndsWell(text: string, cursor: nat, boundary: nat, end: nat)
    requires cursor < boundary <= end <= |text|
    requires boundary == end || text[boundary] == ' ' || NoBlank(text, cursor + 1, boundary + 1)
    ensures forall s :: s in AsUnits(Trim(text, cursor, boundary)) ==> EndsWell(text, s, end)
  {
    var t := Trim(text, cursor, boundary);
    if t.Some? {
      assert Blank(text, t.value.end, boundary);
      assert t.value.end < boundary ==> IsSpace(text[t.value.end]);
      assert EndsWell(text, t.value, end);
    }
  }

  // No word is cut that a blank would have spared: a piece that ends neither at white space nor with the span has no
  // blank behind its first character.
  lemma {:induction false} SplitsAtBlanks(text: string, cursor: nat, end: nat, max: nat)
    requires max >= 1 && cursor < end <= |text|
    ensures forall s :: s in SplitFrom(text, cursor, end, max) ==> EndsWell(text, s, end)
    decreases end - cursor
  {
    if end - cursor > max {
      var boundary := PieceEnd(text, cursor, end, max);
      PieceEndsWell(text, cursor, boundary, end);
      SplitsAtBlanks(text, boundary, end, max);
    } else {
      PieceEndsWell(text, cursor, end, end);
    }
  }

  lemma SplitStep(text: string, done: seq<Span>, cursor: nat, end: nat, max: nat)
    requires max >= 1 && end <= |text| && end - cursor > max
    ensures var boundary := PieceEnd(text, cursor, end, max);
      done + SplitFrom(text, cursor, end, max) == (done + AsUnits(Trim(text, cursor, boundary))) + SplitFrom(text, boundary, end, max)
  {
  }

  method SplitLongSpan(text: string, start: nat, end: nat, max: nat) returns (spans: seq<Span>)
    requires max >= 1 && start <= end <= |text|
    ensures spans == SplitFrom(text, start, end, max)
    ensures forall s :: s in spans ==> EndsWell(text, s, end)
  {
    if start < end {
      SplitsAtBlanks(text, start, end, max);
    }
    spans := [];
    var cursor := start;
    while end - cursor > max
      invariant start <= cursor <= end
      invariant spans + SplitFrom(text, cursor, end, max) == SplitFrom(text, start, end, max)
    {
      SplitStep(text, spans, cursor, end, max);
      var boundary: int := LastBlank(text, cursor, cursor + max + 1);
      if boundary <= cursor {
        boundary := cursor + max;
      }
      assert boundary == PieceEnd(text, cursor, end, max);
      var span := NonemptySpan(text, cursor, boundary);
      spans := spans + AsUnits(span);
      cursor := boundary;
    }
    var span := NonemptySpan(text, cursor, end);
    spans := spans + AsUnits(span);
  }

  predicate SortedCuts(text: string, bounds: seq<nat>) {
    && (forall k :: 0 <= k < |bounds| ==> bounds[k] <= |text|)
    && (forall j, k :: 0 <= j < k < |bounds| ==> bounds[j] <= bounds[k])
  }

  function SegmentUnits(text: string, lo: nat, hi: nat, max: nat): seq<Span>
    requires max >= 1 && lo <= hi <= |text|
  {
    match Trim(text, lo, hi)
    case None => []
    case Some(s) => if s.end - s.start > max then SplitFrom(text, s.start, s.end, max) else [s]
  }

  // The units between consecutive boundaries, the last `k` segments first being dropped.
  function UnitsUpTo(text: string, bounds: seq<nat>, k: nat, max: nat): seq<Span>
    requires max >= 1 && SortedCuts(text, bounds) && 1 <= k <= |bounds|
  {
    if k == 1 then []
    else UnitsUpTo(text, bounds, k - 1, max) + SegmentUnits(text, bounds[k - 2], bounds[k - 1], max)
  }

  function Boundaries(text: string, cuts: seq<nat>): (bounds: seq<nat>)
    requires SortedCuts(text, cuts)
    ensures |bounds| == |cuts| + 2 && SortedCuts(text, bounds)
  {
    [0] + cuts + [|text|]
  }

  function Units(text: string, cuts: seq<nat>, max: nat): seq<Span>
    requires max >= 1 && SortedCuts(text, cuts)
  {
    UnitsUpTo(text, Boundaries(text, cuts), |cuts| + 2, max)
  }

  // White space around a covered part keeps the whole range covered.
  lemma WidenCover(text: string, spans: seq<Span>, lo: nat, s: Span, hi: nat)
    requires lo <= s.start <= s.end <= hi <= |text|
    requires Blank(text, lo, s.start) && Blank(text, s.end, hi) && Covers(text, spans, s.start, s.end)
    ensures Covers(text, spans, lo, hi)
  {
  }

  lemma WidenUnits(text: string, spans: seq<Span>, lo: nat, s: Span, hi: nat, max: int)
    requires lo <= s.start && s.end <= hi && UnitsWithin(text, spans, s.start, s.end, max)
    ensures UnitsWithin(text, spans, lo, hi, max)
  {
  }

  lemma SegmentIsSound(text: string, lo: nat, hi: nat, max: nat)
    requires max >= 1 && lo <= hi <= |text|
    ensures UnitsWithin(text, SegmentUnits(text, lo, hi, max), lo, hi, max)
    ensures Covers(text, SegmentUnits(text, lo, hi, max), lo, hi)
  {
    var t := Trim(text, lo, hi);
    if t.Some? {
      var s := t.value;
      var units := SegmentUnits(text, lo, hi, max);
      if s.end - s.start > max {
        SplitIsSound(text, s.start, s.end, max);
      } else {
        assert units[0] == s;
        assert forall p :: s.start <= p < s.end ==> InSome(units, p);
      }
      WidenUnits(text, units, lo, s, hi, max);
      WidenCover(text, units, lo, s, hi);
    }
  }

  lemma {:induction false} UnitsUpToAreSound(text: string, bounds: seq<nat>, k: nat, max: nat)
    requires max >= 1 && SortedCuts(text, bounds) && 1 <= k <= |bounds|
    ensures UnitsWithin(text, UnitsUpTo(text, bounds, k, max), bounds[0], bounds[k - 1], max)
    ensures Covers(text, UnitsUpTo(text, bounds, k, max), bounds[0], bounds[k - 1])
  {
    if k > 1 {
      UnitsUpToAreSound(text, bounds, k - 1, max);
      SegmentIsSound(text, bounds[k - 2], bounds[k - 1], max);
      var front, last := UnitsUpTo(text, bounds, k - 1, max), SegmentUnits(text, bounds[k - 2], bounds[k - 1], max);
      JoinUnits(text, front, last, bounds[0], bounds[k - 2], bounds[k - 1], max);
      JoinCovers(text, front, last, bounds[0], bounds[k - 2], bounds[k - 1]);
    }
  }

  // Every boundary list gives trimmed, ordered units of at most `max` characters that cover the text.
  lemma UnitsAreSound(text: string, cuts: seq<nat>, max: nat)
    requires max >= 1 && SortedCuts(text, cuts)
    ensures UnitsWithin(text, Units(text, cuts, max), 0, |text|, max)
    ensures Covers(text, Units(text, cuts, max), 0, |text|)
  {
    UnitsUpToAreSound(text, Boundaries(text, cuts), |cuts| + 2, max);
  }

  // The body of the pairwise loop.
  method SegmentPieces(text: string, lo: nat, hi: nat, max: nat) returns (pieces: seq<Span>)
    requires max >= 1 && lo <= hi <= |text|
    ensures pieces == SegmentUnits(text, lo, hi, max)
  {
    var span := NonemptySpan(text, lo, hi);
    if span.None? {
      return [];
    }
    if span.value.end - span.value.start > max {
      pieces := SplitLongSpan(text, span.value.start, span.value.end, max);
    } else {
      pieces := [span.value];
    }
  }

  lemma UnitsStep(text: string, bounds: seq<nat>, k: nat, max: nat)
    requires max >= 1 && SortedCuts(text, bounds) && 1 <= k < |bounds|
    ensures bounds[k - 1] <= bounds[k] <= |text|
    ensures UnitsUpTo(text, bounds, k + 1, max) == UnitsUpTo(text, bounds, k, max) + SegmentUnits(text, bounds[k - 1], bounds[k], max)
  {
  }

  method SemanticUnits(text: string, cuts: seq<nat>, max: nat) returns (units: seq<Span>)
    requires max >= 1 && SortedCuts(text, cuts)
    ensures units == Units(text, cuts, max)
  {
    var boundaries := Boundaries(text, cuts);
    units := [];
    for k := 1 to |boundaries|
      invariant units == UnitsUpTo(text, boundaries, k, max)
    {
      UnitsStep(text, boundaries, k, max);
      var pieces := SegmentPieces(text, boundaries[k - 1], boundaries[k], max);
      units := units + pieces;
    }
  }

  // A cut lies in no unit, and a segment that is short enough is one unit.
  predicate CutApart(u: Span, cut: nat) {
    u.end <= cut || cut <= u.start
  }

  lemma SegmentUnitsInside(text: string, lo: nat, hi: nat, max: nat)
    requires max >= 1 && lo <= hi <= |text|
    ensures forall u :: u in SegmentUnits(text, lo, hi, max) ==> lo <= u.start && u.end <= hi
  {
    var t := Trim(text, lo, hi);
    if t.Some? && t.value.end - t.value.start > max {
      SplitIsSound(text, t.value.start, t.value.end, max);
    }
  }

  lemma {:induction false} UnitsApart(text: string, bounds: seq<nat>, k: nat, max: nat, cut: nat)
    requires max >= 1 && SortedCuts(text, bounds) && 1 <= k <= |bounds| && cut in bounds
    ensures forall u :: u in UnitsUpTo(text, bounds, k, max) ==> CutApart(u, cut)
  {
    if k > 1 {
      UnitsApart(text, bounds, k - 1, max, cut);
      SegmentUnitsInside(text, bounds[k - 2], bounds[k - 1], max);
      var j :| 0 <= j < |bounds| && bounds[j] == cut;
      assert cut <= bounds[k - 2] || bounds[k - 1] <= cut;
    }
  }

  lemma ShortSegment(text: string, lo: nat, hi: nat, max: nat, s: Span)
    requires max >= 1 && lo <= hi <= |text| && Trim(text, lo, hi) == Some(s) && s.end - s.start <= max
    ensures s in SegmentUnits(text, lo, hi, max)
  {
  }

  // Segment j is one unit.
  predicate IsShort(text: string, bounds: seq<nat>, j: nat, max: nat, s: Span)
    requires SortedCuts(text, bounds) && 1 <= j < |bounds|
  {
    bounds[j - 1] <= bounds[j] && Trim(text, bounds[j - 1], bounds[j]) == Some(s) && s.end - s.start <= max
  }

  lemma {:induction false} WholeSegment(text: string, bounds: seq<nat>, k: nat, max: nat, j: nat, s: Span)
    requires max >= 1 && SortedCuts(text, bounds) && 1 <= j < k <= |bounds| && IsShort(text, bounds, j, max, s)
    ensures s in UnitsUpTo(text, bounds, k, max)
  {
    UnitsStep(text, bounds, k - 1, max);
    if j < k - 1 {
      WholeSegment(text, bounds, k - 1, max, j, s);
    } else {
      ShortSegment(text, bounds[j - 1], bounds[j], max, s);
    }
  }

  // The text is cut at the boundaries, and between them only where a segment is longer than the maximum.
  lemma UnitsFollowCuts(text: string, cuts: seq<nat>, max: nat)
    requires max >= 1 && SortedCuts(text, cuts)
    ensures forall u, c :: u in Units(text, cuts, max) && c in cuts ==> CutApart(u, c)
    ensures var bounds := Boundaries(text, cuts);
      forall j, s :: 1 <= j < |bounds| && IsShort(text, bounds, j, max, s) ==> s in Units(text, cuts, max)
  {
    var bounds := Boundaries(text, cuts);
    forall c | c in cuts ensures forall u :: u in Units(text, cuts, max) ==> CutApart(u, c) {
      assert c in bounds;
      UnitsApart(text, bounds, |bounds|, max, c);
    }
    forall j, s | 1 <= j < |bounds| && IsShort(text, bounds, j, max, s) ensures s in Units(text, cuts, max) {
      WholeSegment(text, bounds, |bounds|, max, j, s);
    }
  }

  // ---------------------------------------------------------------- runs of units

  datatype Limits = Limits(target: int, max: int, overlap: int)

  // A chunk is a run of consecutive units: those with index in [lo, hi).
  datatype Run = Run(lo: nat, hi: nat)

  predicate IsRun(units: seq<Span>, r: Run) {
    r.lo < r.hi <= |units|
  }

  function RunSpan(units: seq<Span>, r: Run): Span
    requires IsRun(units, r)
  {
    Span(units[r.lo].start, units[r.hi - 1].end)
  }

  // The first unit of [lo, hi) lying within `overlap` characters of the run's end.
  function Carry(units: seq<Span>, lo: nat, hi: nat, overlap: int): (r: nat)
    requires lo <= hi <= |units|
    ensures lo <= r <= hi
    decreases hi - lo
  {
    if lo < hi && units[hi - 1].end - units[lo].start > overlap then Carry(units, lo + 1, hi, overlap) else lo
  }

  predicate TooLong(units: seq<Span>, lo: nat, next: nat, max: int)
    requires next < |units| && lo <= next
  {
    lo < next && units[next].end - units[lo].start > max
  }

  // Where the next run starts when unit i did not fit behind the run [lo, i).
  function Restart(units: seq<Span>, lo: nat, i: nat, l: Limits): (r: nat)
    requires lo <= i < |units|
    ensures lo <= r <= i
  {
    var j := Carry(units, lo, i, l.overlap);
    if TooLong(units, j, i, l.max) then i else j
  }

  // The runs still to be emitted when units [lo, i) are buffered and unit i comes next.
  function Sweep(units: seq<Span>, lo: nat, i: nat, added: bool, l: Limits): (runs: seq<Run>)
    requires lo <= i <= |units|
    ensures forall r :: r in runs ==> IsRun(units, r)
    decreases |units| - i
  {
    if i == |units| then
      if lo < i && added then [Run(lo, i)] else []
    else if TooLong(units, lo, i, l.max) then
      [Run(lo, i)] + Extend(units, Restart(units, lo, i, l), i, l)
    else
      Extend(units, lo, i, l)
  }

  // Unit i joins the buffer, which is emitted if it reaches the target.
  function Extend(units: seq<Span>, lo: nat, i: nat, l: Limits): (runs: seq<Run>)
    requires lo <= i < |units|
    ensures forall r :: r in runs ==> IsRun(units, r)
    decreases |units| - i, 0
  {
    if units[i].end - units[lo].start >= l.target then
      [Run(lo, i + 1)] + Sweep(units, Carry(units, lo, i + 1, l.overlap), i + 1, false, l)
    else
      Sweep(units, lo, i + 1, true, l)
  }

  ghost predicate OrderedUnits(units: seq<Span>) {
    && (forall k :: 0 <= k < |units| ==> units[k].start < units[k].end)
    && (forall j: nat, k: nat :: Before(units, j, k))
  }

  predicate InRun(runs: seq<Run>, k: nat) {
    exists m :: 0 <= m < |runs| && runs[m].lo <= k < runs[m].hi
  }

  lemma InRunCons(r: Run, runs: seq<Run>, k: nat)
    ensures r.lo <= k < r.hi || InRun(runs, k) ==> InRun([r] + runs, k)
  {
    var all := [r] + runs;
    if r.lo <= k < r.hi {
      assert all[0] == r;
    } else if InRun(runs, k) {
      var m :| 0 <= m < |runs| && runs[m].lo <= k < runs[m].hi;
      assert all[m + 1] == runs[m];
    }
  }

  // No buffered unit is dropped before it is emitted: whatever the limits, every unit that is still
  // to come, or that was added since the last emit, lies in some run.
  lemma {:induction false} EveryUnitIsEmitted(units: seq<Span>, lo: nat, i: nat, added: bool, l: Limits, k: nat)
    requires lo <= i <= |units| && k < |units|
    requires i <= k || (added && lo <= k)
    ensures InRun(Sweep(units, lo, i, added, l), k)
    decreases |units| - i, 1
  {
    if i == |units| {
      assert Sweep(units, lo, i, added, l)[0] == Run(lo, i);
    } else if TooLong(units, lo, i, l.max) {
      var start := Restart(units, lo, i, l);
      InRunCons(Run(lo, i), Extend(units, start, i, l), k);
      if i <= k {
        EveryUnitIsEmittedAfter(units, start, i, l, k);
      }
    } else {
      EveryUnitIsEmittedAfter(units, lo, i, l, k);
    }
  }

  lemma {:induction false} EveryUnitIsEmittedAfter(units: seq<Span>, lo: nat, i: nat, l: Limits, k: nat)
    requires lo <= i < |units| && lo <= k < |units|
    ensures InRun(Extend(units, lo, i, l), k)
    decreases |units| - i, 0
  {
    if units[i].end - units[lo].start >= l.target {
      var j := Carry(units, lo, i + 1, l.overlap);
      InRunCons(Run(lo, i + 1), Sweep(units, j, i + 1, false, l), k);
      if i < k {
        EveryUnitIsEmitted(units, j, i + 1, false, l, k);
      }
    } else {
      EveryUnitIsEmitted(units, lo, i + 1, true, l, k);
    }
  }

  // Two runs emitted one after the other.
  predicate Follows(units: seq<Span>, r: Run, s: Run, l: Limits)
    requires IsRun(units, r) && IsRun(units, s)
  {
    && r.lo < s.lo <= r.hi && r.hi <= s.hi
    && units[r.hi - 1].end - units[s.lo].start <= l.overlap
    && KeepsOverlap(units, r, s, l) && RepeatsOnlyIfNextIsLong(units, r, s, l)
  }

  // The later run adds a unit, except where the next unit is too long to join what was carried over: then the
  // carried units alone are emitted once more.
  predicate RepeatsOnlyIfNextIsLong(units: seq<Span>, r: Run, s: Run, l: Limits) {
    s.hi == r.hi <==> s.lo < r.hi < |units| && TooLong(units, s.lo, r.hi, l.max)
  }

  // The carried overlap is as large as the limit allows, and is given up only when the next unit would not fit behind it.
  predicate KeepsOverlap(units: seq<Span>, r: Run, s: Run, l: Limits)
    requires IsRun(units, r)
  {
    var j := Carry(units, r.lo, r.hi, l.overlap);
    s.lo == j || (s.lo == r.hi && r.hi < |units| && TooLong(units, j, r.hi, l.max))
  }

  predicate WellShaped(units: seq<Span>, runs: seq<Run>, l: Limits) {
    runs == [] ||
    (&& IsRun(units, runs[0]) && RunSpan(units, runs[0]).end - RunSpan(units, runs[0]).start <= l.max
     && WellShaped(units, runs[1..], l)
     && (|runs| > 1 ==> IsRun(units, runs[1]) && Follows(units, runs[0], runs[1], l)))
  }

  lemma ConsShape(units: seq<Span>, r: Run, rest: seq<Run>, l: Limits)
    requires IsRun(units, r) && WellShaped(units, rest, l) && RunSpan(units, r).end - RunSpan(units, r).start <= l.max
    requires rest != [] ==> Follows(units, r, rest[0], l)
    ensures WellShaped(units, [r] + rest, l)
  {
    assert ([r] + rest)[1..] == rest;
  }

  lemma {:induction false} WellShapedAt(units: seq<Span>, runs: seq<Run>, l: Limits, k: nat)
    requires WellShaped(units, runs, l) && k < |runs|
    ensures IsRun(units, runs[k]) && RunSpan(units, runs[k]).end - RunSpan(units, runs[k]).start <= l.max
    ensures k > 0 ==> IsRun(units, runs[k - 1]) && Follows(units, runs[k - 1], runs[k], l)
  {
    if k > 0 {
      WellShapedAt(units, runs[1..], l, k - 1);
      assert runs[1..][k - 1] == runs[k];
      if k > 1 {
        assert runs[1..][k - 2] == runs[k - 1];
      }
    }
  }

  lemma CarryIsWithinOverlap(units: seq<Span>, lo: nat, hi: nat, overlap: int)
    requires lo < hi <= |units| && OrderedUnits(units)
    ensures var j := Carry(units, lo, hi, overlap); j < hi ==> units[hi - 1].end - units[j].start <= overlap
    ensures var j := Carry(units, lo, hi, overlap); forall k :: lo <= k < j ==> units[hi - 1].end - units[k].start > overlap
    decreases hi - lo
  {
  }

  // The limits that the settings accept.
  predicate SoundLimits(l: Limits) {
    0 <= l.overlap < l.target <= l.max
  }

  predicate SweepReady(units: seq<Span>, lo: nat, i: nat, l: Limits)
    requires lo <= i <= |units|
  {
    lo < i ==> units[i - 1].end - units[lo].start < l.target
  }

  predicate ShortUnits(units: seq<Span>, l: Limits) {
    forall k :: 0 <= k < |units| ==> units[k].end - units[k].start <= l.max
  }

  lemma RestartFollows(units: seq<Span>, lo: nat, i: nat, l: Limits)
    requires lo < i < |units| && OrderedUnits(units) && SoundLimits(l) && TooLong(units, lo, i, l.max)
    ensures var start := Restart(units, lo, i, l);
      lo < start && !TooLong(units, start, i, l.max) && units[i - 1].end - units[start].start <= l.overlap
  {
    CarryIsWithinOverlap(units, lo, i, l.overlap);
    assert Before(units, i - 1, i);
  }

  lemma CarryFollows(units: seq<Span>, lo: nat, hi: nat, l: Limits)
    requires lo < hi <= |units| && OrderedUnits(units) && SoundLimits(l)
    requires units[hi - 1].end - units[lo].start >= l.target
    ensures var j := Carry(units, lo, hi, l.overlap);
      lo < j && (j < hi ==> units[hi - 1].end - units[j].start <= l.overlap)
  {
    CarryIsWithinOverlap(units, lo, hi, l.overlap);
  }

  lemma {:induction false} SweepShape(units: seq<Span>, lo: nat, i: nat, added: bool, l: Limits)
    requires lo <= i <= |units| && OrderedUnits(units) && ShortUnits(units, l) && SoundLimits(l)
    requires SweepReady(units, lo, i, l)
    ensures WellShaped(units, Sweep(units, lo, i, added, l), l)
    ensures var runs := Sweep(units, lo, i, added, l);
      runs != [] ==> runs[0].lo == lo && i <= runs[0].hi && (runs[0].hi == i ==> added || i < |units|)
    ensures i < |units| && Sweep(units, lo, i, added, l) != [] ==> (Sweep(units, lo, i, added, l)[0].hi == i <==> TooLong(units, lo, i, l.max))
    decreases |units| - i, 1
  {
    if i < |units| {
      if TooLong(units, lo, i, l.max) {
        var start := Restart(units, lo, i, l);
        var rest := Extend(units, start, i, l);
        RestartFollows(units, lo, i, l);
        ExtendShape(units, start, i, l);
        assert rest != [] ==> Follows(units, Run(lo, i), rest[0], l);
        ConsShape(units, Run(lo, i), rest, l);
      } else {
        ExtendShape(units, lo, i, l);
      }
    }
  }

  lemma {:induction false} ExtendShape(units: seq<Span>, lo: nat, i: nat, l: Limits)
    requires lo <= i < |units| && OrderedUnits(units) && ShortUnits(units, l) && SoundLimits(l)
    requires !TooLong(units, lo, i, l.max)
    ensures WellShaped(units, Extend(units, lo, i, l), l)
    ensures var runs := Extend(units, lo, i, l); runs != [] ==> runs[0].lo == lo && i < runs[0].hi
    decreases |units| - i, 0
  {
    if units[i].end - units[lo].start >= l.target {
      var j := Carry(units, lo, i + 1, l.overlap);
      var rest := Sweep(units, j, i + 1, false, l);
      CarryFollows(units, lo, i + 1, l);
      SweepShape(units, j, i + 1, false, l);
      assert rest != [] ==> rest[0].lo == j && (i + 1 < |units| ==> Before(units, i, i + 1));
      assert rest != [] ==> Follows(units, Run(lo, i + 1), rest[0], l);
      ConsShape(units, Run(lo, i + 1), rest, l);
    } else {
      SweepShape(units, lo, i + 1, true, l);
    }
  }

  // ---------------------------------------------------------------- why a run ends

  // A run ends where it reaches the target, where the next unit does not fit, or with the text; and not later: without
  // its last unit it is below the target.
  predicate EndsInTime(units: seq<Span>, r: Run, l: Limits) {
    && IsRun(units, r)
    && (units[r.hi - 1].end - units[r.lo].start >= l.target || r.hi == |units| || units[r.hi].end - units[r.lo].start > l.max)
    && (r.lo < r.hi - 1 ==> units[r.hi - 2].end - units[r.lo].start < l.target)
  }

  lemma BufferEndsInTime(units: seq<Span>, lo: nat, i: nat, l: Limits)
    requires lo < i <= |units| && OrderedUnits(units) && SweepReady(units, lo, i, l)
    requires i == |units| || TooLong(units, lo, i, l.max)
    ensures EndsInTime(units, Run(lo, i), l)
  {
    assert lo < i - 1 ==> Before(units, i - 2, i - 1);
  }

  lemma {:induction false} SweepEnds(units: seq<Span>, lo: nat, i: nat, added: bool, l: Limits)
    requires lo <= i <= |units| && OrderedUnits(units) && SoundLimits(l) && SweepReady(units, lo, i, l)
    ensures forall r :: r in Sweep(units, lo, i, added, l) ==> EndsInTime(units, r, l)
    decreases |units| - i, 1
  {
    if i == |units| {
      if lo < i {
        BufferEndsInTime(units, lo, i, l);
      }
    } else if TooLong(units, lo, i, l.max) {
      BufferEndsInTime(units, lo, i, l);
      RestartFollows(units, lo, i, l);
      ExtendEnds(units, Restart(units, lo, i, l), i, l);
    } else {
      ExtendEnds(units, lo, i, l);
    }
  }

  lemma {:induction false} ExtendEnds(units: seq<Span>, lo: nat, i: nat, l: Limits)
    requires lo <= i < |units| && OrderedUnits(units) && SoundLimits(l) && SweepReady(units, lo, i, l)
    ensures forall r :: r in Extend(units, lo, i, l) ==> EndsInTime(units, r, l)
    decreases |units| - i, 0
  {
    if units[i].end - units[lo].start >= l.target {
      CarryFollows(units, lo, i + 1, l);
      SweepEnds(units, Carry(units, lo, i + 1, l.overlap), i + 1, false, l);
      assert EndsInTime(units, Run(lo, i + 1), l);
    } else {
      SweepEnds(units, lo, i + 1, true, l);
    }
  }

  // Under the accepted settings every run ends in time.
  lemma RunsEndInTime(units: seq<Span>, l: Limits)
    requires OrderedUnits(units) && SoundLimits(l)
    ensures forall r :: r in Sweep(units, 0, 0, false, l) ==> EndsInTime(units, r, l)
  {
    SweepEnds(units, 0, 0, false, l);
  }

  // At most two chunks for each unit.
  lemma {:induction false} SweepCount(units: seq<Span>, lo: nat, i: nat, added: bool, l: Limits)
    requires lo <= i <= |units|
    ensures |Sweep(units, lo, i, added, l)| <= 2 * (|units| - i) + if added then 1 else 0
    decreases |units| - i
  {
    if i < |units| {
      var start := if TooLong(units, lo, i, l.max) then Restart(units, lo, i, l) else lo;
      SweepCount(units, Carry(units, start, i + 1, l.overlap), i + 1, false, l);
      SweepCount(units, start, i + 1, true, l);
    }
  }

  // ---------------------------------------------------------------- chunks

  function ChunkOf(text: string, hash: string, units: seq<Span>, ordinal: nat, r: Run): TextChunk
    requires IsRun(units, r) && UnitsWithin(text, units, 0, |text|, |text|)
  {
    var s := RunSpan(units, r);
    RunIsTrimmed(text, units, r);
    TextChunk(ChunkId(hash, ordinal, s.start, s.end), ordinal, s.start, s.end, Strip(text[s.start..s.end]))
  }

  lemma RunIsTrimmed(text: string, units: seq<Span>, r: Run)
    requires IsRun(units, r) && UnitsWithin(text, units, 0, |text|, |text|)
    ensures Trimmed(text, RunSpan(units, r))
  {
    assert r.lo == r.hi - 1 || Before(units, r.lo, r.hi - 1);
    assert Trimmed(text, units[r.lo]) && Trimmed(text, units[r.hi - 1]);
  }

  lemma StripTrimmed(text: string, s: Span)
    requires Trimmed(text, s)
    ensures Strip(text[s.start..s.end]) == text[s.start..s.end]
  {
    var piece := text[s.start..s.end];
    assert piece[0] == text[s.start] && piece[|piece| - 1] == text[s.end - 1];
  }

  function ChunksOf(text: string, hash: string, units: seq<Span>, runs: seq<Run>): seq<TextChunk>
    requires UnitsWithin(text, units, 0, |text|, |text|) && forall r :: r in runs ==> IsRun(units, r)
  {
    seq(|runs|, k requires 0 <= k < |runs| => ChunkOf(text, hash, units, k, runs[k]))
  }

  // What semantic_chunks returns for a text, its boundaries and its limits.
  function SemanticChunks(text: string, hash: string, cuts: seq<nat>, l: Limits): seq<TextChunk>
    requires l.max >= 1 && SortedCuts(text, cuts)
  {
    var units := Units(text, cuts, l.max);
    UnitsAreSound(text, cuts, l.max);
    UnitsFitText(text, units, l.max);
    ChunksOf(text, hash, units, Sweep(units, 0, 0, false, l))
  }

  lemma UnitsFitText(text: string, units: seq<Span>, max: int)
    requires UnitsWithin(text, units, 0, |text|, max)
    ensures UnitsWithin(text, units, 0, |text|, |text|) && OrderedUnits(units)
  {
    forall k | 0 <= k < |units| ensures units[k].start < units[k].end <= |text| {
      assert Trimmed(text, units[k]);
    }
  }

  predicate InChunk(chunks: seq<TextChunk>, p: nat) {
    exists k :: 0 <= k < |chunks| && chunks[k].charStart <= p < chunks[k].charEnd
  }

  lemma RunHoldsUnit(units: seq<Span>, r: Run, k: nat, p: nat)
    requires OrderedUnits(units) && IsRun(units, r) && r.lo <= k < r.hi
    requires units[k].start <= p < units[k].end
    ensures RunSpan(units, r).start <= p < RunSpan(units, r).end
  {
    assert r.lo == k || Before(units, r.lo, k);
    assert r.hi - 1 == k || Before(units, k, r.hi - 1);
  }

  predicate RunCovers(units: seq<Span>, runs: seq<Run>, m: nat, p: nat) {
    m < |runs| && IsRun(units, runs[m]) && RunSpan(units, runs[m]).start <= p < RunSpan(units, runs[m]).end
  }

  lemma SomeRunCovers(units: seq<Span>, l: Limits, p: nat) returns (m: nat)
    requires OrderedUnits(units) && InSome(units, p)
    ensures RunCovers(units, Sweep(units, 0, 0, false, l), m, p)
  {
    var runs := Sweep(units, 0, 0, false, l);
    var k :| 0 <= k < |units| && units[k].start <= p < units[k].end;
    EveryUnitIsEmitted(units, 0, 0, false, l, k);
    m :| 0 <= m < |runs| && runs[m].lo <= k < runs[m].hi;
    RunHoldsUnit(units, runs[m], k, p);
  }

  // Every non-white-space character lies in some chunk.
  lemma ChunksCoverText(text: string, hash: string, cuts: seq<nat>, l: Limits, p: nat)
    requires l.max >= 1 && SortedCuts(text, cuts)
    requires p < |text| && !IsSpace(text[p])
    ensures InChunk(SemanticChunks(text, hash, cuts, l), p)
  {
    var units := Units(text, cuts, l.max);
    UnitsAreSound(text, cuts, l.max);
    assert InSome(units, p);
    UnitsFitText(text, units, l.max);
    var m := SomeRunCovers(units, l, p);
    var c := SemanticChunks(text, hash, cuts, l)[m];
    assert c.charStart <= p < c.charEnd;
  }

  // Each chunk's text is exactly its slice of the text, and is never empty.
  lemma ChunkTextIsSlice(text: string, hash: string, cuts: seq<nat>, l: Limits, k: nat)
    requires l.max >= 1 && SortedCuts(text, cuts)
    requires k < |SemanticChunks(text, hash, cuts, l)|
    ensures var c := SemanticChunks(text, hash, cuts, l)[k];
      && c.charStart < c.charEnd <= |text| && c.text == text[c.charStart..c.charEnd]
      && c.ordinal == k && c.id == ChunkId(hash, k, c.charStart, c.charEnd)
  {
    var units := Units(text, cuts, l.max);
    UnitsAreSound(text, cuts, l.max);
    UnitsFitText(text, units, l.max);
    var r := Sweep(units, 0, 0, false, l)[k];
    RunIsTrimmed(text, units, r);
    StripTrimmed(text, RunSpan(units, r));
  }

  // What the runs look like in the text: none spans more than the maximum, starts strictly increase, ends
  // never decrease, consecutive runs share at most the overlap, and share as much of it as still fits.
  lemma RunShape(units: seq<Span>, l: Limits, k: nat)
    requires OrderedUnits(units) && ShortUnits(units, l) && SoundLimits(l)
    requires k < |Sweep(units, 0, 0, false, l)|
    ensures var runs := Sweep(units, 0, 0, false, l);
      var s := RunSpan(units, runs[k]);
      && s.end - s.start <= l.max
      && (k > 0 ==>
            var r := RunSpan(units, runs[k - 1]);
            && r.start < s.start && r.end <= s.end && r.end - s.start <= l.overlap
            && KeepsOverlap(units, runs[k - 1], runs[k], l) && RepeatsOnlyIfNextIsLong(units, runs[k - 1], runs[k], l))
  {
    var runs := Sweep(units, 0, 0, false, l);
    SweepShape(units, 0, 0, false, l);
    WellShapedAt(units, runs, l, k);
    if k > 0 {
      var r, s := runs[k - 1], runs[k];
      assert Before(units, r.lo, s.lo);
      assert r.hi == s.hi || Before(units, r.hi - 1, s.hi - 1);
    }
  }

  lemma ChunkIsRun(text: string, hash: string, cuts: seq<nat>, l: Limits, k: nat)
    requires l.max >= 1 && SortedCuts(text, cuts)
    requires k < |SemanticChunks(text, hash, cuts, l)|
    ensures var runs := Sweep(Units(text, cuts, l.max), 0, 0, false, l);
      var c := SemanticChunks(text, hash, cuts, l)[k];
      |runs| == |SemanticChunks(text, hash, cuts, l)| && c.ordinal == k
      && Span(c.charStart, c.charEnd) == RunSpan(Units(text, cuts, l.max), runs[k])
  {
  }

  // The same of the chunks, under the accepted settings.
  lemma ChunkShape(text: string, hash: string, cuts: seq<nat>, l: Limits, k: nat)
    requires SoundLimits(l) && SortedCuts(text, cuts)
    requires k < |SemanticChunks(text, hash, cuts, l)|
    ensures var chunks := SemanticChunks(text, hash, cuts, l);
      && chunks[k].ordinal == k && chunks[k].charEnd - chunks[k].charStart <= l.max
      && (k > 0 ==>
            && chunks[k - 1].charStart < chunks[k].charStart && chunks[k - 1].charEnd <= chunks[k].charEnd
            && chunks[k - 1].charEnd - chunks[k].charStart <= l.overlap)
  {
    var units := Units(text, cuts, l.max);
    assert OrderedUnits(units) && ShortUnits(units, l) by {
      UnitsAreSound(text, cuts, l.max);
      UnitsFitText(text, units, l.max);
    }
    ChunkIsRun(text, hash, cuts, l, k);
    RunShape(units, l, k);
    if k > 0 {
      ChunkIsRun(text, hash, cuts, l, k - 1);
    }
  }

  // A text of three units: the only spaces are those at 5 and 11.
  predicate ThreeUnits(text: string) {
    |text| == 24 && forall p :: 0 <= p < 24 ==> (IsSpace(text[p]) <==> p == 5 || p == 11)
  }

  lemma ThreeUnitsOf(text: string)
    requires ThreeUnits(text)
    ensures Units(text, [6, 12], 12) == [Span(0, 5), Span(6, 11), Span(12, 24)]
  {
    TrimIsUnique(text, 0, 6, Some(Span(0, 5)));
    TrimIsUnique(text, 6, 12, Some(Span(6, 11)));
    TrimIsUnique(text, 12, 24, Some(Span(12, 24)));
    var bounds := Boundaries(text, [6, 12]);
    assert bounds[0] == 0 && bounds[1] == 6 && bounds[2] == 12 && bounds[3] == 24;
    assert UnitsUpTo(text, bounds, 1, 12) == [];
    assert UnitsUpTo(text, bounds, 2, 12) == [Span(0, 5)];
    assert UnitsUpTo(text, bounds, 3, 12) == [Span(0, 5), Span(6, 11)];
  }

  lemma SecondRunIsCarried(units: seq<Span>, l: Limits)
    requires units == [Span(0, 5), Span(6, 11), Span(12, 24)] && l == Limits(11, 12, 5)
    ensures Sweep(units, 0, 0, false, l) == [Run(0, 2), Run(1, 2), Run(2, 3)]
  {
    assert Carry(units, 2, 3, l.overlap) == 3;
    assert Sweep(units, 3, 3, false, l) == [];
    assert Extend(units, 2, 2, l) == [Run(2, 3)];
    assert Restart(units, 1, 2, l) == 2;
    assert Sweep(units, 1, 2, false, l) == [Run(1, 2), Run(2, 3)];
    assert Carry(units, 0, 2, l.overlap) == 1;
    assert Extend(units, 0, 1, l) == [Run(0, 2), Run(1, 2), Run(2, 3)];
    assert Sweep(units, 0, 1, true, l) == Extend(units, 0, 1, l);
    assert Extend(units, 0, 0, l) == Sweep(units, 0, 1, true, l);
  }

  lemma SecondChunkIsCarried(text: string, hash: string, l: Limits)
    requires ThreeUnits(text) && l == Limits(11, 12, 5)
    ensures SortedCuts(text, [6, 12]) && |SemanticChunks(text, hash, [6, 12], l)| == 3
    ensures var chunks := SemanticChunks(text, hash, [6, 12], l);
      && chunks[0].charStart == 0 && chunks[0].charEnd == 11
      && chunks[1].charStart == 6 && chunks[1].charEnd == 11
      && chunks[2].charStart == 12 && chunks[2].charEnd == 24
  {
    ThreeUnitsOf(text);
    SecondRunIsCarried(Units(text, [6, 12], l.max), l);
    assert |SemanticChunks(text, hash, [6, 12], l)| == 3;
    ChunkIsRun(text, hash, [6, 12], l, 0);
    ChunkIsRun(text, hash, [6, 12], l, 1);
    ChunkIsRun(text, hash, [6, 12], l, 2);
  }

  // A chunk of carried overlap only: here the second chunk is the end of the first, and nothing else.
  lemma CarriedUnitIsEmittedAgain(hash: string)
    ensures var text, cuts, l := "aaaa. bbbb. cccccccccccc", [6, 12], Limits(11, 12, 5);
      && SortedCuts(text, cuts) && SoundLimits(l)
      && var chunks := SemanticChunks(text, hash, cuts, l);
      && |chunks| == 3
      && chunks[0].charStart == 0 && chunks[0].charEnd == 11
      && chunks[1].charStart == 6 && chunks[1].charEnd == 11
      && chunks[2].charStart == 12 && chunks[2].charEnd == 24
  {
    var text := "aaaa. bbbb. cccccccccccc";
    assert ThreeUnits(text);
    SecondChunkIsCarried(text, hash, Limits(11, 12, 5));
  }

  // There are at most twice as many chunks as units.
  lemma ChunkCount(text: string, hash: string, cuts: seq<nat>, l: Limits)
    requires l.max >= 1 && SortedCuts(text, cuts)
    ensures |SemanticChunks(text, hash, cuts, l)| <= 2 * |Units(text, cuts, l.max)|
  {
    SweepCount(Units(text, cuts, l.max), 0, 0, false, l);
  }

  // ---------------------------------------------------------------- the loop of semantic_chunks

  // What `emit` keeps of the buffer: the units at its end that lie within `overlap` of `end`.
  function Retained(buffer: seq<Span>, end: nat, overlap: int): seq<Span> {
    if buffer == [] || end - buffer[|buffer| - 1].start > overlap then []
    else Retained(buffer[..|buffer| - 1], end, overlap) + [buffer[|buffer| - 1]]
  }

  lemma RetainedLast(front: seq<Span>, last: Span, end: nat, overlap: int)
    ensures Retained(front + [last], end, overlap) == if end - last.start > overlap then [] else Retained(front, end, overlap) + [last]
  {
    assert (front + [last])[..|front|] == front;
  }

  lemma {:induction false} RetainedFrom(units: seq<Span>, lo: nat, j: nat, k: nat, end: nat, overlap: int)
    requires lo <= j <= k <= |units|
    requires forall m :: lo <= m < j ==> end - units[m].start > overlap
    requires forall m :: j <= m < k ==> end - units[m].start <= overlap
    ensures Retained(units[lo..k], end, overlap) == units[j..k]
    decreases k
  {
    if lo < k {
      assert units[lo..k] == units[lo..k - 1] + [units[k - 1]];
      RetainedLast(units[lo..k - 1], units[k - 1], end, overlap);
      if j < k {
        RetainedFrom(units, lo, j, k - 1, end, overlap);
        assert units[j..k] == units[j..k - 1] + [units[k - 1]];
      }
    }
  }

  lemma RetainedIsCarry(units: seq<Span>, lo: nat, hi: nat, overlap: int)
    requires OrderedUnits(units) && lo < hi <= |units|
    ensures Retained(units[lo..hi], units[hi - 1].end, overlap) == units[Carry(units, lo, hi, overlap)..hi]
  {
    var j := Carry(units, lo, hi, overlap);
    CarryIsWithinOverlap(units, lo, hi, overlap);
    forall m | j <= m < hi ensures units[hi - 1].end - units[m].start <= overlap {
      assert j == m || Before(units, j, m);
    }
    RetainedFrom(units, lo, j, hi, units[hi - 1].end, overlap);
  }

  class ChunkBuilder {
    const text: string
    const sourceHash: string
    const overlap: int
    var current: seq<Span>
    var chunks: seq<TextChunk>
    var addedSinceEmit: bool

    constructor (text: string, sourceHash: string, overlap: int)
      ensures this.text == text && this.sourceHash == sourceHash && this.overlap == overlap
      ensures current == [] && chunks == [] && !addedSinceEmit
    {
      this.text, this.sourceHash, this.overlap := text, sourceHash, overlap;
      current, chunks, addedSinceEmit := [], [], false;
    }

    method Emit()
      requires current != [] ==> Trimmed(text, Span(current[0].start, current[|current| - 1].end))
      modifies this
      ensures old(current) == [] ==> current == [] && chunks == old(chunks) && addedSinceEmit == old(addedSinceEmit)
      ensures old(current) != [] ==>
                var start, end := old(current)[0].start, old(current)[|old(current)| - 1].end;
                && !addedSinceEmit
                && current == Retained(old(current), end, overlap)
                && chunks == old(chunks) + [TextChunk(ChunkId(sourceHash, |old(chunks)|, start, end), |old(chunks)|, start, end, Strip(text[start..end]))]
    {
      if current == [] {
        return;
      }
      var start, end := current[0].start, current[|current| - 1].end;
      var value := Strip(text[start..end]);
      StripTrimmed(text, Span(start, end));
      if value != "" {
        var ordinal := |chunks|;
        chunks := chunks + [TextChunk(ChunkId(sourceHash, ordinal, start, end), ordinal, start, end, value)];
      }
      var retained: seq<Span> := [];
      var k := |current|;
      assert current[..k] == current;
      while k > 0
        invariant 0 <= k <= |current|
        invariant Retained(current, end, overlap) == Retained(current[..k], end, overlap) + retained
      {
        assert current[..k][..k - 1] == current[..k - 1];
        var unit := current[k - 1];
        if end - unit.start > overlap {
          break;
        }
        retained := [unit] + retained;
        k := k - 1;
      }
      current := retained;
      addedSinceEmit := false;
    }
  }

  // The buffer holds units [lo, i) and `runs` have been emitted.
  ghost predicate Holds(b: ChunkBuilder, units: seq<Span>, runs: seq<Run>, lo: nat, i: nat)
    reads b
  {
    && UnitsWithin(b.text, units, 0, |b.text|, |b.text|) && OrderedUnits(units)
    && lo <= i <= |units| && b.current == units[lo..i]
    && (forall r :: r in runs ==> IsRun(units, r))
    && b.chunks == ChunksOf(b.text, b.sourceHash, units, runs)
    && (b.addedSinceEmit ==> lo < i)
    // the last chunk ends before the units added since
    && (runs != [] ==> runs[|runs| - 1].hi <= i && (b.addedSinceEmit ==> runs[|runs| - 1].hi < i))
  }

  lemma ChunksOfSnoc(text: string, hash: string, units: seq<Span>, runs: seq<Run>, r: Run)
    requires UnitsWithin(text, units, 0, |text|, |text|) && IsRun(units, r) && forall q :: q in runs ==> IsRun(units, q)
    ensures ChunksOf(text, hash, units, runs + [r]) == ChunksOf(text, hash, units, runs) + [ChunkOf(text, hash, units, |runs|, r)]
  {
  }

  method EmitRun(b: ChunkBuilder, ghost units: seq<Span>, ghost runs: seq<Run>, ghost lo: nat, ghost i: nat)
    requires Holds(b, units, runs, lo, i) && lo < i
    modifies b
    ensures Holds(b, units, runs + [Run(lo, i)], Carry(units, lo, i, b.overlap), i) && !b.addedSinceEmit
  {
    ghost var r := Run(lo, i);
    RunIsTrimmed(b.text, units, r);
    RetainedIsCarry(units, lo, i, b.overlap);
    ChunksOfSnoc(b.text, b.sourceHash, units, runs, r);
    assert b.current[0] == units[lo] && b.current[|b.current| - 1] == units[i - 1];
    b.Emit();
  }

  // The duplicate-span test never suppresses a chunk: units added since the last emit end after it.
  lemma FinalSpanIsNew(b: ChunkBuilder, units: seq<Span>, runs: seq<Run>, lo: nat)
    requires Holds(b, units, runs, lo, |units|) && b.addedSinceEmit && b.chunks != []
    ensures b.chunks[|b.chunks| - 1].charEnd < b.current[|b.current| - 1].end
  {
    var r := runs[|runs| - 1];
    assert r in runs;
    assert Before(units, r.hi - 1, |units| - 1);
  }

  // The first half of a turn of the unit loop: emit, and clear the carried overlap, when unit i does not fit.
  method MakeRoom(b: ChunkBuilder, units: seq<Span>, i: nat, l: Limits, ghost runs: seq<Run>, ghost lo: nat)
    returns (ghost runs': seq<Run>, ghost lo': nat)
    requires i < |units| && Holds(b, units, runs, lo, i) && b.overlap == l.overlap
    modifies b
    ensures Holds(b, units, runs', lo', i)
    ensures runs' + Extend(units, lo', i, l) == runs + Sweep(units, lo, i, old(b.addedSinceEmit), l)
  {
    var unit := units[i];
    runs', lo' := runs, lo;
    if b.current != [] && unit.end - b.current[0].start > l.max {
      EmitRun(b, units, runs, lo, i);
      runs', lo' := runs + [Run(lo, i)], Carry(units, lo, i, l.overlap);
      if b.current != [] && unit.end - b.current[0].start > l.max {
        b.current := [];
        lo' := i;
      }
    }
  }

  // The second half: unit i joins the buffer, which is emitted if it reaches the target.
  method AppendUnit(b: ChunkBuilder, units: seq<Span>, i: nat, l: Limits, ghost runs: seq<Run>, ghost lo: nat)
    returns (ghost runs': seq<Run>, ghost lo': nat)
    requires i < |units| && Holds(b, units, runs, lo, i) && b.overlap == l.overlap
    modifies b
    ensures Holds(b, units, runs', lo', i + 1)
    ensures runs' + Sweep(units, lo', i + 1, b.addedSinceEmit, l) == runs + Extend(units, lo, i, l)
  {
    assert units[lo..i + 1] == units[lo..i] + [units[i]];
    b.current := b.current + [units[i]];
    b.addedSinceEmit := true;
    runs', lo' := runs, lo;
    if b.current[|b.current| - 1].end - b.current[0].start >= l.target {
      EmitRun(b, units, runs, lo, i + 1);
      lo' := Carry(units, lo, i + 1, l.overlap);
      runs' := runs + [Run(lo, i + 1)];
    }
  }

  // What follows the unit loop.
  method Finish(b: ChunkBuilder, ghost units: seq<Span>, ghost l: Limits, ghost runs: seq<Run>, ghost lo: nat) returns (chunks: seq<TextChunk>)
    requires Holds(b, units, runs, lo, |units|)
    modifies b
    ensures chunks == ChunksOf(b.text, b.sourceHash, units, runs + Sweep(units, lo, |units|, old(b.addedSinceEmit), l))
  {
    if b.current != [] && b.addedSinceEmit {
      var finalStart, finalEnd := b.current[0].start, b.current[|b.current| - 1].end;
      if b.chunks != [] {
        FinalSpanIsNew(b, units, runs, lo);
      }
      if b.chunks == [] || b.chunks[|b.chunks| - 1].charStart != finalStart || b.chunks[|b.chunks| - 1].charEnd != finalEnd {
        EmitRun(b, units, runs, lo, |units|);
      }
    } else {
      assert runs + [] == runs;
    }
    return b.chunks;
  }

  method ComputeSemanticChunks(text: string, sourceHash: string, cuts: seq<nat>, l: Limits) returns (r: Result<seq<TextChunk>, ChunkError>)
    requires l.max >= 1 && SortedCuts(text, cuts)
    ensures r == if l.target > l.max then Err(TargetExceedsMaximum) else Ok(SemanticChunks(text, sourceHash, cuts, l))
  {
    if l.target > l.max {
      return Err(TargetExceedsMaximum);
    }
    var units := SemanticUnits(text, cuts, l.max);
    UnitsAreSound(text, cuts, l.max);
    UnitsFitText(text, units, l.max);
    var b := new ChunkBuilder(text, sourceHash, l.overlap);
    ghost var runs: seq<Run> := [];
    ghost var lo: nat := 0;
    for i := 0 to |units|
      invariant Holds(b, units, runs, lo, i) && b.text == text && b.sourceHash == sourceHash && b.overlap == l.overlap
      invariant runs + Sweep(units, lo, i, b.addedSinceEmit, l) == Sweep(units, 0, 0, false, l)
    {
      runs, lo := MakeRoom(b, units, i, l, runs, lo);
      runs, lo := AppendUnit(b, units, i, l, runs, lo);
    }
    var chunks := Finish(b, units, l, runs, lo);
    return Ok(chunks);
  }
}
