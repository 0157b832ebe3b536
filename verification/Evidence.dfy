/** Failure evidence: the windows around error-marked log lines, and a bounded extraction of them. */
module Evidence {
  import opened Basics
  import opened Wrappers
  import opened Paths

  type Byte = x: int | 0 <= x < 256

  /** A log line: whether it matches the error markers, its size in the file, and its redacted text in UTF-8. */
  datatype Line = Line(marked: bool, bytes: nat, redacted: seq<Byte>)

  /** Lines start..end of a file, counted from 0, end excluded. */
  datatype Window = Window(start: int, end: int)

  const CONTEXT_LINES := 2
  const MAX_ARCHIVE_ENTRIES := 250
  const MAX_ENTRY_BYTES := 2 * 1024 * 1024
  const MAX_UNCOMPRESSED_BYTES := 8 * 1024 * 1024

  // ---- Windows ----

  function RawWindow(n: nat, index: nat): Window {
    Window(Max(0, index - CONTEXT_LINES), Min(n, index + CONTEXT_LINES + 1))
  }

  predicate Near(index: int, n: int) {
    n - CONTEXT_LINES <= index <= n + CONTEXT_LINES
  }

  /** Line n is within two lines of a marked line with an index below k. */
  predicate NearMarkerBelow(lines: seq<Line>, k: nat, n: int)
    requires k <= |lines|
  {
    exists m :: 0 <= m < k && lines[m].marked && Near(m, n)
  }

  predicate NearMarker(lines: seq<Line>, n: int) {
    NearMarkerBelow(lines, |lines|, n)
  }

  predicate Inside(w: Window, n: int) {
    w.start <= n < w.end
  }

  predicate Covers(ws: seq<Window>, n: int) {
    exists i :: 0 <= i < |ws| && Inside(ws[i], n)
  }

  /** Non-empty windows in order, with at least one line between neighbours. */
  predicate Separated(ws: seq<Window>) {
    && (forall i :: 0 <= i < |ws| ==> 0 <= ws[i].start < ws[i].end)
    && (forall i, j :: 0 <= i < j < |ws| ==> ws[i].end < ws[j].start)
  }

  /** The windows of a log: separated, inside the file, and covering exactly the lines near a marker. */
  ghost predicate AreWindowsOf(ws: seq<Window>, lines: seq<Line>, k: nat)
    requires k <= |lines|
  {
    && Separated(ws)
    && (forall i :: 0 <= i < |ws| ==> ws[i].end <= |lines|)
    && (forall n :: 0 <= n < |lines| ==> (Covers(ws, n) <==> NearMarkerBelow(lines, k, n)))
  }

  /** The loop body: extend the last window or start a new one. */
  function MergeOne(merged: seq<Window>, w: Window): seq<Window> {
    if merged != [] && w.start <= merged[|merged| - 1].end
    then merged[|merged| - 1 := Window(merged[|merged| - 1].start, Max(merged[|merged| - 1].end, w.end))]
    else merged + [w]
  }

  /** Merging the raw windows of the first k lines. */
  function Windows(lines: seq<Line>, k: nat): seq<Window>
    requires k <= |lines|
  {
    if k == 0 then []
    else if lines[k - 1].marked then MergeOne(Windows(lines, k - 1), RawWindow(|lines|, k - 1))
    else Windows(lines, k - 1)
  }

  /** Markers come in order, so the next raw window starts no earlier and ends no earlier than the last merged one. */
  predicate Reaches(ws: seq<Window>, n: nat, k: nat) {
    ws != [] ==> ws[|ws| - 1].start <= Max(0, k - 1 - CONTEXT_LINES) && ws[|ws| - 1].end <= Min(n, k + CONTEXT_LINES)
  }

  lemma MergeCovers(merged: seq<Window>, w: Window, n: int)
    requires merged != [] ==>
               var last := merged[|merged| - 1]; last.start <= w.start && last.start < last.end <= w.end
    ensures Covers(MergeOne(merged, w), n) <==> Covers(merged, n) || Inside(w, n)
  {
    var r := MergeOne(merged, w);
    var last := |merged| - 1;
    if merged != [] && w.start <= merged[last].end {
      assert Inside(r[last], n) <==> Inside(merged[last], n) || Inside(w, n);
      assert forall i :: 0 <= i < last ==> r[i] == merged[i];
    } else {
      assert r[|merged|] == w;
      assert forall i :: 0 <= i < |merged| ==> r[i] == merged[i];
    }
  }

  lemma MergeSeparates(merged: seq<Window>, w: Window)
    requires Separated(merged) && 0 <= w.start < w.end
    requires merged != [] ==> merged[|merged| - 1].start <= w.start
    ensures Separated(MergeOne(merged, w))
  {}

  lemma {:induction false} WindowsAreSeparated(lines: seq<Line>, k: nat)
    requires k <= |lines|
    ensures Separated(Windows(lines, k)) && Reaches(Windows(lines, k), |lines|, k)
    ensures forall i :: 0 <= i < |Windows(lines, k)| ==> Windows(lines, k)[i].end <= |lines|
  {
    if k > 0 {
      WindowsAreSeparated(lines, k - 1);
      if lines[k - 1].marked { MergeSeparates(Windows(lines, k - 1), RawWindow(|lines|, k - 1)); }
    }
  }

  lemma {:induction false} WindowsCover(lines: seq<Line>, k: nat, n: int)
    requires k <= |lines| && 0 <= n < |lines|
    ensures Covers(Windows(lines, k), n) <==> NearMarkerBelow(lines, k, n)
  {
    if k > 0 {
      WindowsCover(lines, k - 1, n);
      if lines[k - 1].marked {
        WindowsAreSeparated(lines, k - 1);
        MergeCovers(Windows(lines, k - 1), RawWindow(|lines|, k - 1), n);
      }
    }
  }

  /** Merging yields windows that are separated and cover exactly what is near a marker. */
  lemma {:induction false} WindowsAreWindows(lines: seq<Line>, k: nat)
    requires k <= |lines|
    ensures AreWindowsOf(Windows(lines, k), lines, k)
  {
    WindowsAreSeparated(lines, k);
    forall n | 0 <= n < |lines| ensures Covers(Windows(lines, k), n) <==> NearMarkerBelow(lines, k, n) {
      WindowsCover(lines, k, n);
    }
  }

  /** `_matching_windows`: editing the last window in place. */
  method MatchingWindows(lines: seq<Line>) returns (merged: seq<Window>)
    ensures AreWindowsOf(merged, lines, |lines|)
    ensures merged == Windows(lines, |lines|)
  {
    merged := [];
    for index := 0 to |lines|
      invariant merged == Windows(lines, index)
    {
      if lines[index].marked {
        var w := RawWindow(|lines|, index);
        if merged != [] && w.start <= merged[|merged| - 1].end {
          var last := merged[|merged| - 1];
          merged := merged[|merged| - 1 := Window(last.start, Max(last.end, w.end))];
        } else {
          merged := merged + [w];
        }
      }
    }
    WindowsAreWindows(lines, |lines|);
  }

  // ---- Sorted, separated windows are determined by the lines they cover ----

  lemma CoverStep(a: seq<Window>, n: int)
    requires Separated(a) && a != []
    ensures Covers(a, n) <==> Inside(a[0], n) || Covers(a[1..], n)
  {}

  /** Nothing before the first window's start, nor the line at its end, is covered. */
  lemma FirstWindowIsMaximal(a: seq<Window>, n: int)
    requires Separated(a) && a != [] && (n < a[0].start || n == a[0].end)
    ensures !Covers(a, n)
  {}

  lemma SameFirst(a: seq<Window>, b: seq<Window>)
    requires Separated(a) && Separated(b) && a != [] && b != []
    requires forall n :: Covers(a, n) <==> Covers(b, n)
    ensures a[0] == b[0]
  {
    assert Inside(a[0], a[0].start) && Inside(b[0], b[0].start);
    assert Covers(a, a[0].start) && Covers(b, b[0].start);
    if a[0].start < b[0].start { FirstWindowIsMaximal(b, a[0].start); }
    if b[0].start < a[0].start { FirstWindowIsMaximal(a, b[0].start); }
    assert a[0].start == b[0].start;
    if a[0].end < b[0].end { FirstWindowIsMaximal(a, a[0].end); assert Inside(b[0], a[0].end); }
    if b[0].end < a[0].end { FirstWindowIsMaximal(b, b[0].end); assert Inside(a[0], b[0].end); }
  }

  lemma {:induction false} WindowsAreUnique(a: seq<Window>, b: seq<Window>)
    requires Separated(a) && Separated(b) && forall n :: Covers(a, n) <==> Covers(b, n)
    ensures a == b
    decreases |a|
  {
    assert a != [] ==> Inside(a[0], a[0].start) && Covers(a, a[0].start);
    assert b != [] ==> Inside(b[0], b[0].start) && Covers(b, b[0].start);
    if a != [] {
      SameFirst(a, b);
      forall n ensures Covers(a[1..], n) <==> Covers(b[1..], n) {
        CoverStep(a, n);
        CoverStep(b, n);
      }
      WindowsAreUnique(a[1..], b[1..]);
    }
  }

  // ---- Extraction ----

  /** An archive entry with its declared size and its decoded lines. */
  datatype Entry = Entry(name: string, directory: bool, size: nat, lines: seq<Line>)

  /** Lines start..end of a source, counted from 1, both included. */
  datatype Range = Range(source: string, start: int, end: int, text: seq<Byte>)

  // ---- What a file of so many bytes can hold ----

  /** The shortest text that matches the error markers is "fail". */
  const MIN_MARKER_BYTES := 4

  /** A marked line has the marker's bytes, and redaction neither empties a line nor fills an empty one. */
  predicate IsLine(l: Line) {
    (l.marked ==> l.bytes >= MIN_MARKER_BYTES) && (l.redacted == [] <==> l.bytes == 0)
  }

  /** The first k lines with a one-byte terminator each. */
  function TextSize(lines: seq<Line>, k: nat): nat
    requires k <= |lines|
  {
    if k == 0 then 0 else TextSize(lines, k - 1) + lines[k - 1].bytes + 1
  }

  /** The lines of an entry come from its bytes; only a last line with text may lack its terminator. */
  predicate IsText(e: Entry) {
    && (forall i :: 0 <= i < |e.lines| ==> IsLine(e.lines[i]))
    && (e.lines != [] ==>
          TextSize(e.lines, |e.lines|) <= e.size + if e.lines[|e.lines| - 1].bytes > 0 then 1 else 0)
  }

  lemma {:induction false} TextSizeBounds(lines: seq<Line>, k: nat, m: int)
    requires k <= |lines| && forall i :: 0 <= i < |lines| ==> IsLine(lines[i])
    ensures TextSize(lines, k) >= k
    ensures 0 <= m < k && lines[m].marked ==> TextSize(lines, k) >= k + MIN_MARKER_BYTES
  {
    if k > 0 { TextSizeBounds(lines, k - 1, m); }
  }

  /** A file with an error line has at least three bytes more than lines. */
  lemma MarkedFilesAreLarger(e: Entry, m: int)
    requires IsText(e) && 0 <= m < |e.lines| && e.lines[m].marked
    ensures |e.lines| + MIN_MARKER_BYTES - 1 <= e.size
  {
    TextSizeBounds(e.lines, |e.lines|, m);
  }

  datatype ExtractError = TooManyEntries | TooMuchData

  predicate Readable(e: Entry) {
    !e.directory && e.size <= MAX_ENTRY_BYTES && !UnsafePath(e.name)
  }

  /** The redacted lines joined by newlines. */
  function Joined(lines: seq<Line>): seq<Byte> {
    if lines == [] then []
    else if |lines| == 1 then lines[0].redacted
    else lines[0].redacted + [10] + Joined(lines[1..])
  }

  predicate InFile(w: Window, e: Entry) {
    0 <= w.start < w.end <= |e.lines|
  }

  function RangeOf(e: Entry, w: Window): Range
    requires InFile(w, e)
  {
    Range(e.name, w.start + 1, w.end, Joined(e.lines[w.start..w.end]))
  }

  ghost predicate AllInFile(ws: seq<Window>, e: Entry) {
    forall i :: 0 <= i < |ws| ==> InFile(ws[i], e)
  }

  /** The ranges of the first n windows. */
  ghost function RangesOf(e: Entry, ws: seq<Window>, n: nat): (rs: seq<Range>)
    requires AllInFile(ws, e) && n <= |ws|
    ensures |rs| == n
  {
    if n == 0 then [] else RangesOf(e, ws, n - 1) + [RangeOf(e, ws[n - 1])]
  }

  lemma {:induction false} RangeAt(e: Entry, ws: seq<Window>, n: nat, i: nat)
    requires AllInFile(ws, e) && i < n <= |ws|
    ensures RangesOf(e, ws, n)[i] == RangeOf(e, ws[i])
  {
    if i < n - 1 { RangeAt(e, ws, n - 1, i); }
  }

  lemma WindowsInFile(e: Entry)
    ensures AllInFile(Windows(e.lines, |e.lines|), e)
  {
    WindowsAreWindows(e.lines, |e.lines|);
  }

  /** Every window of an entry, if it may be read at all. */
  ghost function EntryRanges(e: Entry): seq<Range> {
    WindowsInFile(e);
    if Readable(e) then RangesOf(e, Windows(e.lines, |e.lines|), |Windows(e.lines, |e.lines|)|) else []
  }

  ghost function Parts(archive: seq<Entry>): (parts: seq<seq<Range>>)
    ensures |parts| == |archive| && forall i :: 0 <= i < |archive| ==> parts[i] == EntryRanges(archive[i])
  {
    seq(|archive|, i requires 0 <= i < |archive| => EntryRanges(archive[i]))
  }

  /** The first k parts, one after the other. */
  function Flatten(parts: seq<seq<Range>>, k: nat): seq<Range>
    requires k <= |parts|
  {
    if k == 0 then [] else Flatten(parts, k - 1) + parts[k - 1]
  }

  /** Every window of every readable entry, in archive order. */
  ghost function Candidates(archive: seq<Entry>): seq<Range> {
    Flatten(Parts(archive), |archive|)
  }

  function LinesOf(r: Range): int {
    r.end - r.start + 1
  }

  /** The lines and bytes of the first n ranges. */
  function TotalLines(rs: seq<Range>, n: nat): int
    requires n <= |rs|
  {
    if n == 0 then 0 else TotalLines(rs, n - 1) + LinesOf(rs[n - 1])
  }

  function TotalBytes(rs: seq<Range>, n: nat): int
    requires n <= |rs|
  {
    if n == 0 then 0 else TotalBytes(rs, n - 1) + |rs[n - 1].text|
  }

  /** The declared size, if the entry is read at all. */
  function Weight(e: Entry): nat {
    if Readable(e) then e.size else 0
  }

  function Weights(archive: seq<Entry>): (weights: seq<nat>)
    ensures |weights| == |archive| && forall i :: 0 <= i < |archive| ==> weights[i] == Weight(archive[i])
  {
    seq(|archive|, i requires 0 <= i < |archive| => Weight(archive[i]))
  }

  /** The data of the first k entries. */
  function DataSize(weights: seq<nat>, k: nat): nat
    requires k <= |weights|
  {
    if k == 0 then 0 else DataSize(weights, k - 1) + weights[k - 1]
  }

  /** The limits allow the first n ranges; selecting nothing is always allowed. */
  predicate Fits(rs: seq<Range>, n: nat, maxLines: int, maxBytes: int)
    requires n <= |rs|
  {
    n == 0 || (TotalLines(rs, n) <= maxLines && TotalBytes(rs, n) <= maxBytes)
  }

  predicate Proper(rs: seq<Range>) {
    forall i :: 0 <= i < |rs| ==> rs[i].start <= rs[i].end
  }

  lemma {:induction false} TotalsGrow(rs: seq<Range>, m: nat, n: nat)
    requires Proper(rs) && m <= n <= |rs|
    ensures TotalLines(rs, m) <= TotalLines(rs, n) && TotalBytes(rs, m) <= TotalBytes(rs, n)
    decreases n
  {
    if m < n { TotalsGrow(rs, m, n - 1); }
  }

  lemma FewerFit(rs: seq<Range>, m: nat, n: nat, maxLines: int, maxBytes: int)
    requires Proper(rs) && m <= n <= |rs| && Fits(rs, n, maxLines, maxBytes)
    ensures Fits(rs, m, maxLines, maxBytes)
  {
    TotalsGrow(rs, m, n);
  }

  lemma EntryRangesAreProper(e: Entry)
    ensures Proper(EntryRanges(e))
  {
    WindowsInFile(e);
    var ws := Windows(e.lines, |e.lines|);
    forall i | 0 <= i < |EntryRanges(e)| ensures EntryRanges(e)[i].start <= EntryRanges(e)[i].end {
      RangeAt(e, ws, |ws|, i);
    }
  }

  lemma {:induction false} FlattenIsProper(parts: seq<seq<Range>>, k: nat)
    requires k <= |parts| && forall i :: 0 <= i < |parts| ==> Proper(parts[i])
    ensures Proper(Flatten(parts, k))
  {
    if k > 0 { FlattenIsProper(parts, k - 1); }
  }

  lemma CandidatesAreProper(archive: seq<Entry>)
    ensures Proper(Candidates(archive))
  {
    forall i | 0 <= i < |archive| ensures Proper(Parts(archive)[i]) { EntryRangesAreProper(archive[i]); }
    FlattenIsProper(Parts(archive), |archive|);
  }

  /** How many candidates come before entry k. */
  function Offset(parts: seq<seq<Range>>, k: nat): nat
    requires k <= |parts|
  {
    |Flatten(parts, k)|
  }

  predicate IsPrefix(a: seq<Range>, b: seq<Range>) {
    |a| <= |b| && a == b[..|a|]
  }

  lemma {:induction false} FlattenIsPrefix(parts: seq<seq<Range>>, j: nat, k: nat)
    requires j <= k <= |parts|
    ensures IsPrefix(Flatten(parts, j), Flatten(parts, k))
    decreases k
  {
    if j < k {
      FlattenIsPrefix(parts, j, k - 1);
    }
  }

  /** rs stands in all at this position. */
  predicate StandsAt(rs: seq<Range>, all: seq<Range>, at: nat) {
    at + |rs| <= |all| && forall c :: 0 <= c < |rs| ==> all[at + c] == rs[c]
  }

  /** Where part i stands among all candidates. */
  lemma {:induction false} PartStands(parts: seq<seq<Range>>, i: nat, all: seq<Range>)
    requires i < |parts| && all == Flatten(parts, |parts|)
    ensures StandsAt(parts[i], all, Offset(parts, i))
    ensures Offset(parts, i + 1) == Offset(parts, i) + |parts[i]|
  {
    FlattenIsPrefix(parts, i + 1, |parts|);
  }

  lemma OffsetsGrow(parts: seq<seq<Range>>, j: nat, k: nat, all: seq<Range>)
    requires j <= k <= |parts| && all == Flatten(parts, |parts|)
    ensures Offset(parts, j) <= Offset(parts, k) <= |all|
  {
    FlattenIsPrefix(parts, j, k);
    FlattenIsPrefix(parts, k, |parts|);
  }

  /** Entry k is the one whose data passes the limit. */
  predicate Overflows(weights: seq<nat>, k: nat)
    requires k < |weights|
  {
    DataSize(weights, k) <= MAX_UNCOMPRESSED_BYTES < DataSize(weights, k + 1)
  }

  /** Everything before part k fits. */
  ghost predicate ReachesPart(parts: seq<seq<Range>>, all: seq<Range>, k: nat, maxLines: int, maxBytes: int)
    requires k < |parts|
  {
    Offset(parts, k) <= |all| && Fits(all, Offset(parts, k), maxLines, maxBytes)
  }

  /** The extraction reaches entry k, as everything before it fits, and fails there. */
  ghost predicate FailsAt(
    weights: seq<nat>, parts: seq<seq<Range>>, all: seq<Range>, k: nat, maxLines: int, maxBytes: int)
    requires k < |weights| == |parts|
  {
    Overflows(weights, k) && ReachesPart(parts, all, k, maxLines, maxBytes)
  }

  /** The longest prefix of the candidates that fits. */
  ghost predicate IsSelection(rs: seq<Range>, all: seq<Range>, maxLines: int, maxBytes: int) {
    && IsPrefix(rs, all) && Fits(all, |rs|, maxLines, maxBytes)
    && (|rs| < |all| ==> !Fits(all, |rs| + 1, maxLines, maxBytes))
  }

  lemma {:induction false} TotalsOfPrefix(rs: seq<Range>, all: seq<Range>, n: nat)
    requires IsPrefix(rs, all) && n <= |rs|
    ensures TotalLines(rs, n) == TotalLines(all, n) && TotalBytes(rs, n) == TotalBytes(all, n)
  {
    if n > 0 { TotalsOfPrefix(rs, all, n - 1); }
  }

  /** A selection keeps both limits, and every longer prefix breaks one of them. */
  lemma {:induction false} SelectionIsLongest(rs: seq<Range>, all: seq<Range>, maxLines: int, maxBytes: int, n: nat)
    requires IsSelection(rs, all, maxLines, maxBytes) && Proper(all)
    ensures rs != [] ==> TotalLines(rs, |rs|) <= maxLines && TotalBytes(rs, |rs|) <= maxBytes
    ensures rs <= all
    ensures |rs| < n <= |all| ==> TotalLines(all, n) > maxLines || TotalBytes(all, n) > maxBytes
  {
    TotalsOfPrefix(rs, all, |rs|);
    if |rs| < n <= |all| { TotalsGrow(all, |rs| + 1, n); }
  }

  /** What an extraction returns when it returns ranges. */
  ghost predicate Extracts(archive: seq<Entry>, maxLines: int, maxBytes: int, rs: seq<Range>) {
    && |archive| <= MAX_ARCHIVE_ENTRIES
    && (forall k :: 0 <= k < |archive| ==>
          !FailsAt(Weights(archive), Parts(archive), Candidates(archive), k, maxLines, maxBytes))
    && IsSelection(rs, Candidates(archive), maxLines, maxBytes)
  }

  /** A prefix with its running totals. */
  ghost predicate Tracks(ranges: seq<Range>, lines: int, bytes: int, all: seq<Range>, maxLines: int, maxBytes: int) {
    && IsPrefix(ranges, all) && Fits(all, |ranges|, maxLines, maxBytes)
    && lines == TotalLines(all, |ranges|) && bytes == TotalBytes(all, |ranges|)
  }

  /** The inner loop: one entry's windows, until one does not fit. */
  method TakeWindows(
    e: Entry, ws: seq<Window>, ghost all: seq<Range>, taken: seq<Range>, lines: int, bytes: int, maxLines: int,
    maxBytes: int)
    returns (ranges: seq<Range>, lines': int, bytes': int, stopped: bool)
    requires AllInFile(ws, e) && Tracks(taken, lines, bytes, all, maxLines, maxBytes)
    requires StandsAt(RangesOf(e, ws, |ws|), all, |taken|)
    ensures Tracks(ranges, lines', bytes', all, maxLines, maxBytes)
    ensures |ranges| <= |taken| + |ws| && (stopped <==> |ranges| < |taken| + |ws|)
    ensures stopped ==> !Fits(all, |ranges| + 1, maxLines, maxBytes)
  {
    ranges, lines', bytes', stopped := taken, lines, bytes, false;
    for i := 0 to |ws|
      invariant |ranges| == |taken| + i && !stopped
      invariant Tracks(ranges, lines', bytes', all, maxLines, maxBytes)
    {
      var r := RangeOf(e, ws[i]);
      var selected := ws[i].end - ws[i].start;
      RangeAt(e, ws, |ws|, i);
      assert r == all[|taken| + i];
      if lines' + selected > maxLines || bytes' + |r.text| > maxBytes {
        stopped := true;
        return;
      }
      ranges, lines', bytes' := ranges + [r], lines' + selected, bytes' + |r.text|;
    }
  }

  /** One readable entry: find its windows, take those that fit. */
  method TakeEntry(
    e: Entry, ghost all: seq<Range>, taken: seq<Range>, lines: int, bytes: int, maxLines: int, maxBytes: int)
    returns (ranges: seq<Range>, lines': int, bytes': int, stopped: bool)
    requires Readable(e) && Tracks(taken, lines, bytes, all, maxLines, maxBytes)
    requires StandsAt(EntryRanges(e), all, |taken|)
    ensures Tracks(ranges, lines', bytes', all, maxLines, maxBytes)
    ensures |ranges| <= |taken| + |EntryRanges(e)| && (stopped <==> |ranges| < |taken| + |EntryRanges(e)|)
    ensures stopped ==> !Fits(all, |ranges| + 1, maxLines, maxBytes)
  {
    var ws := MatchingWindows(e.lines);
    WindowsInFile(e);
    ranges, lines', bytes', stopped := TakeWindows(e, ws, all, taken, lines, bytes, maxLines, maxBytes);
  }

  ghost predicate Describes(e: Entry, weight: nat, part: seq<Range>) {
    weight == Weight(e) && part == EntryRanges(e)
  }

  datatype Progress = Continue | Stop | Overflow

  /** The outer loop's body for one entry. */
  method ReadEntry(
    e: Entry, ghost weight: nat, ghost part: seq<Range>, ghost all: seq<Range>, taken: seq<Range>, lines: int,
    bytes: int, data: nat, maxLines: int, maxBytes: int)
    returns (ranges: seq<Range>, lines': int, bytes': int, data': nat, progress: Progress)
    requires Describes(e, weight, part)
    requires Tracks(taken, lines, bytes, all, maxLines, maxBytes) && StandsAt(part, all, |taken|)
    ensures Tracks(ranges, lines', bytes', all, maxLines, maxBytes)
    ensures data' == data + weight
    ensures data <= MAX_UNCOMPRESSED_BYTES ==> (progress.Overflow? <==> data' > MAX_UNCOMPRESSED_BYTES)
    ensures progress.Overflow? ==> ranges == taken
    ensures progress.Continue? ==> |ranges| == |taken| + |part|
    ensures progress.Stop? ==> |ranges| < |taken| + |part| && !Fits(all, |ranges| + 1, maxLines, maxBytes)
  {
    ranges, lines', bytes', data', progress := taken, lines, bytes, data, Continue;
    if e.directory || e.size > MAX_ENTRY_BYTES || UnsafePath(e.name) {
      return;
    }
    data' := data + e.size;
    if data' > MAX_UNCOMPRESSED_BYTES {
      progress := Overflow;
      return;
    }
    var stopped;
    ranges, lines', bytes', stopped := TakeEntry(e, all, taken, lines, bytes, maxLines, maxBytes);
    progress := if stopped then Stop else Continue;
  }

  lemma {:induction false} DataGrows(weights: seq<nat>, j: nat, k: nat)
    requires j <= k <= |weights|
    ensures DataSize(weights, j) <= DataSize(weights, k)
    decreases k
  {
    if j < k { DataGrows(weights, j, k - 1); }
  }

  /** Entries read within the data limit did not fail, and entries not reached do not. */
  lemma NeverFails(weights: seq<nat>, parts: seq<seq<Range>>, all: seq<Range>, i: nat, maxLines: int, maxBytes: int)
    requires i <= |weights| == |parts| && DataSize(weights, i) <= MAX_UNCOMPRESSED_BYTES
    requires forall k :: i <= k < |parts| ==> !ReachesPart(parts, all, k, maxLines, maxBytes)
    ensures forall k :: 0 <= k < |weights| ==> !FailsAt(weights, parts, all, k, maxLines, maxBytes)
  {
    forall k | 0 <= k < i ensures !FailsAt(weights, parts, all, k, maxLines, maxBytes) {
      DataGrows(weights, k + 1, i);
    }
  }

  /**
   * `extract_failure_ranges`: the longest prefix, in archive order, of all windows of the readable
   * entries that fits both limits; it fails on a large archive, or on reaching too much data.
   */
  method ExtractFailureRanges(
    archive: seq<Entry>, maxLines: int, maxBytes: int) returns (r: Result<seq<Range>, ExtractError>)
    ensures r == Err(TooManyEntries) <==> |archive| > 250
    ensures r == Err(TooMuchData) <==>
            && |archive| <= 250
            && exists k :: (0 <= k < |archive|
                 && FailsAt(Weights(archive), Parts(archive), Candidates(archive), k, maxLines, maxBytes))
    ensures r.Ok? ==> |archive| <= 250 && Extracts(archive, maxLines, maxBytes, r.value)
  {
    if |archive| > MAX_ARCHIVE_ENTRIES {
      return Err(TooManyEntries);
    }
    ghost var weights, parts, all := Weights(archive), Parts(archive), Candidates(archive);
    var ranges, progress, at := ReadEntries(archive, weights, parts, all, maxLines, maxBytes);
    CandidatesAreProper(archive);
    OutcomeIsRight(weights, parts, all, |ranges|, progress, at, maxLines, maxBytes);
    r := if progress.Overflow? then Err(TooMuchData) else Ok(ranges);
  }

  lemma OutcomeIsRight(
    weights: seq<nat>, parts: seq<seq<Range>>, all: seq<Range>, n: nat, progress: Progress, at: nat,
    maxLines: int, maxBytes: int)
    requires |parts| == |weights| && all == Flatten(parts, |parts|)
    requires Proper(all) && n <= |all| && Fits(all, n, maxLines, maxBytes)
    requires progress.Continue? ==> DataSize(weights, |weights|) <= MAX_UNCOMPRESSED_BYTES
    requires !progress.Continue? ==> at < |parts|
    requires progress.Stop? ==> n < Offset(parts, at + 1) && n < |all| && !Fits(all, n + 1, maxLines, maxBytes)
    requires progress.Stop? ==> DataSize(weights, at + 1) <= MAX_UNCOMPRESSED_BYTES
    requires progress.Overflow? ==> Overflows(weights, at) && n == Offset(parts, at)
    ensures progress.Overflow? <==>
            exists k :: 0 <= k < |weights| && FailsAt(weights, parts, all, k, maxLines, maxBytes)
  {
    match progress
    case Overflow => assert FailsAt(weights, parts, all, at, maxLines, maxBytes);
    case Stop =>
      StoppedForGood(parts, at, n, all, maxLines, maxBytes);
      NeverFails(weights, parts, all, at + 1, maxLines, maxBytes);
    case Continue => NeverFails(weights, parts, all, |weights|, maxLines, maxBytes);
  }

  /** What an archive amounts to, entry by entry and in all. */
  ghost predicate Plans(archive: seq<Entry>, weights: seq<nat>, parts: seq<seq<Range>>, all: seq<Range>) {
    && |parts| == |weights| == |archive| && all == Flatten(parts, |parts|)
    && forall i {:trigger Describes(archive[i], weights[i], parts[i])} ::
         0 <= i < |archive| ==> Describes(archive[i], weights[i], parts[i])
  }

  /** The outer loop's body, in terms of the plan. */
  method ReadNext(
    archive: seq<Entry>, i: nat, ghost weights: seq<nat>, ghost parts: seq<seq<Range>>, ghost all: seq<Range>,
    taken: seq<Range>, lines: int, bytes: int, data: nat, maxLines: int, maxBytes: int)
    returns (ranges: seq<Range>, lines': int, bytes': int, data': nat, progress: Progress)
    requires Plans(archive, weights, parts, all) && i < |archive|
    requires Tracks(taken, lines, bytes, all, maxLines, maxBytes)
    requires |taken| == Offset(parts, i) && data == DataSize(weights, i) <= MAX_UNCOMPRESSED_BYTES
    ensures Tracks(ranges, lines', bytes', all, maxLines, maxBytes)
    ensures data' == DataSize(weights, i + 1) && Offset(parts, i + 1) <= |all|
    ensures progress.Overflow? <==> data' > MAX_UNCOMPRESSED_BYTES
    ensures progress.Overflow? ==> |ranges| == Offset(parts, i)
    ensures progress.Continue? ==> |ranges| == Offset(parts, i + 1)
    ensures progress.Stop? ==> |ranges| < Offset(parts, i + 1) && !Fits(all, |ranges| + 1, maxLines, maxBytes)
  {
    PartStands(parts, i, all);
    ranges, lines', bytes', data', progress :=
      ReadEntry(archive[i], weights[i], parts[i], all, taken, lines, bytes, data, maxLines, maxBytes);
  }

  /** The outer loop; `at` is the entry where it ended. */
  method ReadEntries(
    archive: seq<Entry>, ghost weights: seq<nat>, ghost parts: seq<seq<Range>>, ghost all: seq<Range>,
    maxLines: int, maxBytes: int)
    returns (ranges: seq<Range>, progress: Progress, ghost at: nat)
    requires Plans(archive, weights, parts, all)
    ensures IsPrefix(ranges, all) && Fits(all, |ranges|, maxLines, maxBytes)
    ensures progress.Continue? ==> |ranges| == |all| && DataSize(weights, |weights|) <= MAX_UNCOMPRESSED_BYTES
    ensures !progress.Continue? ==> at < |archive|
    ensures progress.Stop? ==>
              && |ranges| < Offset(parts, at + 1) <= |all| && !Fits(all, |ranges| + 1, maxLines, maxBytes)
              && DataSize(weights, at + 1) <= MAX_UNCOMPRESSED_BYTES
    ensures progress.Overflow? ==> Overflows(weights, at) && |ranges| == Offset(parts, at)
  {
    var lines, bytes, data: nat := 0, 0, 0;
    ranges, progress, at := [], Continue, 0;
    for i := 0 to |archive|
      invariant progress.Continue? && Tracks(ranges, lines, bytes, all, maxLines, maxBytes)
      invariant |ranges| == Offset(parts, i) && data == DataSize(weights, i) <= MAX_UNCOMPRESSED_BYTES
    {
      at := i;
      ranges, lines, bytes, data, progress :=
        ReadNext(archive, i, weights, parts, all, ranges, lines, bytes, data, maxLines, maxBytes);
      if !progress.Continue? { return; }
    }
  }

  /** Once a window did not fit, no later entry is reached. */
  lemma StoppedForGood(parts: seq<seq<Range>>, i: nat, n: nat, all: seq<Range>, maxLines: int, maxBytes: int)
    requires i < |parts| && all == Flatten(parts, |parts|) && Proper(all)
    requires n < Offset(parts, i + 1) && n < |all| && !Fits(all, n + 1, maxLines, maxBytes)
    ensures forall k :: i < k < |parts| ==> !ReachesPart(parts, all, k, maxLines, maxBytes)
  {
    forall k | i < k < |parts| ensures !ReachesPart(parts, all, k, maxLines, maxBytes) {
      OffsetsGrow(parts, i + 1, k, all);
      if Fits(all, Offset(parts, k), maxLines, maxBytes) { FewerFit(all, n + 1, Offset(parts, k), maxLines, maxBytes); }
    }
  }

  // ---- Where extracted lines come from ----

  /** Line number n (from 1) of a readable entry of this name is within two lines of a marked line. */
  predicate IsEvidence(e: Entry, source: string, n: int) {
    Readable(e) && e.name == source && 1 <= n <= |e.lines| && NearMarker(e.lines, n - 1)
  }

  predicate LineIsEvidence(archive: seq<Entry>, source: string, n: int) {
    exists k :: 0 <= k < |archive| && IsEvidence(archive[k], source, n)
  }

  lemma EntryLinesAreEvidence(e: Entry, i: nat, n: int)
    requires i < |EntryRanges(e)| && EntryRanges(e)[i].start <= n <= EntryRanges(e)[i].end
    ensures IsEvidence(e, EntryRanges(e)[i].source, n)
  {
    WindowsAreWindows(e.lines, |e.lines|);
    WindowsInFile(e);
    var ws := Windows(e.lines, |e.lines|);
    RangeAt(e, ws, |ws|, i);
    assert Inside(ws[i], n - 1) && Covers(ws, n - 1);
  }

  lemma {:induction false} PartOf(parts: seq<seq<Range>>, k: nat, c: nat) returns (i: nat, j: nat)
    requires k <= |parts| && c < |Flatten(parts, k)|
    ensures i < k && j < |parts[i]| && Flatten(parts, k)[c] == parts[i][j]
  {
    var before := Flatten(parts, k - 1);
    if c < |before| {
      i, j := PartOf(parts, k - 1, c);
    } else {
      i, j := k - 1, c - |before|;
    }
  }

  /** Every line of every candidate, hence of every extracted range, is evidence. */
  lemma CandidateLinesAreEvidence(archive: seq<Entry>, c: nat, n: int)
    requires c < |Candidates(archive)| && Candidates(archive)[c].start <= n <= Candidates(archive)[c].end
    ensures LineIsEvidence(archive, Candidates(archive)[c].source, n)
  {
    var i, j := PartOf(Parts(archive), |archive|, c);
    EntryLinesAreEvidence(archive[i], j, n);
  }

  /** A candidate is one whole window: its text is its lines' redacted text, and the lines around it are no evidence. */
  ghost predicate IsWindowOf(e: Entry, r: Range) {
    && Readable(e) && r.source == e.name && 1 <= r.start <= r.end <= |e.lines|
    && r.text == Joined(e.lines[r.start - 1..r.end])
    && !IsEvidence(e, e.name, r.start - 1) && !IsEvidence(e, e.name, r.end + 1)
  }

  lemma EntryRangesAreWindows(e: Entry, i: nat)
    requires i < |EntryRanges(e)|
    ensures IsWindowOf(e, EntryRanges(e)[i])
  {
    WindowsAreWindows(e.lines, |e.lines|);
    WindowsInFile(e);
    var ws := Windows(e.lines, |e.lines|);
    RangeAt(e, ws, |ws|, i);
    assert forall n :: Inside(ws[i], n) <==> ws[i].start <= n < ws[i].end;
    NotBetween(ws, i);
  }

  /** The lines next to a window are in no window. */
  lemma NotBetween(ws: seq<Window>, i: nat)
    requires Separated(ws) && i < |ws|
    ensures !Covers(ws, ws[i].start - 1) && !Covers(ws, ws[i].end)
  {}

  lemma CandidatesAreWindows(archive: seq<Entry>, c: nat) returns (k: nat)
    requires c < |Candidates(archive)|
    ensures k < |archive| && IsWindowOf(archive[k], Candidates(archive)[c])
  {
    var j;
    k, j := PartOf(Parts(archive), |archive|, c);
    EntryRangesAreWindows(archive[k], j);
  }

  /** Conversely, nothing is left out: every evidence line of every entry is in a candidate of its name. */
  lemma EvidenceLinesAreCandidates(archive: seq<Entry>, source: string, n: int) returns (c: nat)
    requires LineIsEvidence(archive, source, n)
    ensures c < |Candidates(archive)| && Candidates(archive)[c].source == source
    ensures Candidates(archive)[c].start <= n <= Candidates(archive)[c].end
  {
    var k :| 0 <= k < |archive| && IsEvidence(archive[k], source, n);
    var i := EvidenceLineIsInRange(archive[k], source, n);
    c := PartIsIn(Parts(archive), k, i, Candidates(archive));
  }

  lemma {:induction false} PartIsIn(parts: seq<seq<Range>>, k: nat, i: nat, all: seq<Range>) returns (c: nat)
    requires k < |parts| && i < |parts[k]| && all == Flatten(parts, |parts|)
    ensures c < |all| && all[c] == parts[k][i]
  {
    PartStands(parts, k, all);
    c := Offset(parts, k) + i;
  }

  lemma EvidenceLineIsInRange(e: Entry, source: string, n: int) returns (i: nat)
    requires IsEvidence(e, source, n)
    ensures i < |EntryRanges(e)| && EntryRanges(e)[i].source == source
    ensures EntryRanges(e)[i].start <= n <= EntryRanges(e)[i].end
  {
    var ws := Windows(e.lines, |e.lines|);
    WindowsAreWindows(e.lines, |e.lines|);
    WindowsInFile(e);
    assert Covers(ws, n - 1);
    var j :| 0 <= j < |ws| && Inside(ws[j], n - 1);
    i := j;
    RangeAt(e, ws, |ws|, i);
  }

  /** Evidence in plain numbers: files of at most two megabytes, and two lines on either side of a marked one. */
  lemma EvidenceIs(e: Entry, source: string, n: int)
    ensures IsEvidence(e, source, n) <==>
            && !e.directory && e.size <= 2097152 && !UnsafePath(e.name) && e.name == source && 1 <= n <= |e.lines|
            && exists m :: 0 <= m < |e.lines| && e.lines[m].marked && m - 1 <= n <= m + 3
    ensures forall weights, k :: 0 <= k < |weights| ==>
              (Overflows(weights, k) <==> DataSize(weights, k) <= 8388608 < DataSize(weights, k + 1))
  {
    if m :| 0 <= m < |e.lines| && e.lines[m].marked && m - 1 <= n <= m + 3 {
      assert Near(m, n - 1);
    }
  }

  /** Joining puts one line feed between any two neighbours, and nothing else. */
  lemma {:induction false} JoiningTwo(a: seq<Line>, b: seq<Line>)
    requires a != [] && b != []
    ensures Joined(a + b) == Joined(a) + [10] + Joined(b)
    ensures |a| == 1 ==> Joined(a) == a[0].redacted
    ensures Joined([]) == []
    decreases |a|
  {
    assert (a + b)[0] == a[0] && (a + b)[1..] == a[1..] + b;
    if |a| > 1 { JoiningTwo(a[1..], b); } else { assert (a + b)[1..] == b; }
  }
}
