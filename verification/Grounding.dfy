/** Grounding: a generated report may only cite what its context supplied. */
module Grounding {
  import opened Wrappers
  import opened Basics
  import opened Paths
  import opened Evidence

  type Positive = x: int | x >= 1 witness 1

  /** A cited range of lines; both ends are at least 1, and nothing relates them. */
  datatype LogRange = LogRange(source: string, start: Positive, end: Positive)

  datatype Citations = Citations(
    jobs: seq<int>, steps: seq<int>, tests: seq<string>, logs: seq<LogRange>, metrics: seq<string>)

  datatype Item = Item(title: string, evidence: Citations)

  datatype Report = Report(findings: seq<Item>, recommendations: seq<Item>)

  datatype Context = Context(
    jobs: set<int>, steps: set<int>, tests: set<string>, metrics: set<string>, logs: seq<Range>)

  datatype Fault = NoEvidence | OutsideContext | UnavailableRange

  /** An error names the item it is raised for. */
  datatype GroundingError = GroundingError(item: nat, fault: Fault)

  predicate HasEvidence(c: Citations) {
    c.jobs != [] || c.steps != [] || c.tests != [] || c.logs != [] || c.metrics != []
  }

  function Elements<T>(s: seq<T>): set<T> {
    set x | x in s
  }

  predicate KnownIds(c: Citations, context: Context) {
    && Elements(c.jobs) - context.jobs == {}
    && Elements(c.steps) - context.steps == {}
    && Elements(c.tests) - context.tests == {}
    && Elements(c.metrics) - context.metrics == {}
  }

  predicate Admits(supplied: Range, cited: LogRange) {
    cited.source == supplied.source && cited.start >= supplied.start && cited.end <= supplied.end
  }

  predicate Available(cited: LogRange, logs: seq<Range>) {
    exists i :: 0 <= i < |logs| && Admits(logs[i], cited)
  }

  predicate RangesAvailable(c: Citations, context: Context) {
    forall i :: 0 <= i < |c.logs| ==> Available(c.logs[i], context.logs)
  }

  /** The checks of one item, in order. */
  function FaultOf(c: Citations, context: Context): Option<Fault> {
    if !HasEvidence(c) then Some(NoEvidence)
    else if !KnownIds(c, context) then Some(OutsideContext)
    else if !RangesAvailable(c, context) then Some(UnavailableRange)
    else None
  }

  /** `validate_grounding` from item k on: the first fault, if any. */
  function ValidateFrom(items: seq<Item>, context: Context, k: nat): (error: Option<GroundingError>)
    requires k <= |items|
    ensures error.None? <==> forall i :: k <= i < |items| ==> FaultOf(items[i].evidence, context).None?
    ensures error.Some? ==>
              && k <= error.value.item < |items|
              && FaultOf(items[error.value.item].evidence, context) == Some(error.value.fault)
              && forall i :: k <= i < error.value.item ==> FaultOf(items[i].evidence, context).None?
    decreases |items| - k
  {
    if k == |items| then None
    else
      var fault := FaultOf(items[k].evidence, context);
      if fault.Some? then Some(GroundingError(k, fault.value)) else ValidateFrom(items, context, k + 1)
  }

  function ValidateGrounding(report: Report, context: Context): Option<GroundingError> {
    ValidateFrom(report.findings + report.recommendations, context, 0)
  }

  predicate Within<T>(s: seq<T>, known: set<T>) {
    forall x :: x in s ==> x in known
  }

  /** Everything an item cites is there. */
  predicate Grounded(c: Citations, context: Context) {
    && HasEvidence(c)
    && Within(c.jobs, context.jobs)
    && Within(c.steps, context.steps)
    && Within(c.tests, context.tests)
    && Within(c.metrics, context.metrics)
    && RangesAvailable(c, context)
  }

  lemma KnownMeansContained<T>(s: seq<T>, known: set<T>)
    ensures Elements(s) - known == {} <==> Within(s, known)
  {
    if Elements(s) - known == {} {
      forall x | x in s ensures x in known {
        assert x !in Elements(s) - known;
      }
    }
  }

  lemma NoFaultMeansGrounded(c: Citations, context: Context)
    ensures FaultOf(c, context).None? <==> Grounded(c, context)
  {
    KnownMeansContained(c.jobs, context.jobs);
    KnownMeansContained(c.steps, context.steps);
    KnownMeansContained(c.tests, context.tests);
    KnownMeansContained(c.metrics, context.metrics);
  }

  predicate HasUnknown<T(==)>(s: seq<T>, known: set<T>) {
    exists i :: 0 <= i < |s| && s[i] !in known
  }

  /** Some cited job, step, test or metric is not in the context. */
  predicate CitesUnknown(c: Citations, context: Context) {
    || HasUnknown(c.jobs, context.jobs) || HasUnknown(c.steps, context.steps)
    || HasUnknown(c.tests, context.tests) || HasUnknown(c.metrics, context.metrics)
  }

  /** The cited range is of another source, starts too early or ends too late. */
  predicate Exceeds(cited: LogRange, supplied: Range) {
    cited.source != supplied.source || cited.start < supplied.start || supplied.end < cited.end
  }

  predicate Missing(cited: LogRange, logs: seq<Range>) {
    forall j :: 0 <= j < |logs| ==> Exceeds(cited, logs[j])
  }

  /** Some cited range fits into no supplied range of its source. */
  predicate CitesMissingRange(c: Citations, logs: seq<Range>) {
    exists i :: 0 <= i < |c.logs| && Missing(c.logs[i], logs)
  }

  /** What the faults mean: nothing cited, then an unknown id, then a range that was not supplied. */
  lemma FaultsMean(c: Citations, context: Context)
    ensures var cited := |c.jobs| + |c.steps| + |c.tests| + |c.logs| + |c.metrics|;
            FaultOf(c, context) ==
            if cited == 0 then Some(NoEvidence)
            else if CitesUnknown(c, context) then Some(OutsideContext)
            else if CitesMissingRange(c, context.logs) then Some(UnavailableRange)
            else None
  {
    UnknownIds(c, context);
    MissingRange(c, context);
  }

  lemma MissingRange(c: Citations, context: Context)
    ensures RangesAvailable(c, context) <==> !CitesMissingRange(c, context.logs)
  {
    forall i | 0 <= i < |c.logs| ensures Available(c.logs[i], context.logs) <==> !Missing(c.logs[i], context.logs) {
      MissingIsUnavailable(c.logs[i], context.logs);
    }
  }

  lemma MissingIsUnavailable(cited: LogRange, logs: seq<Range>)
    ensures Available(cited, logs) <==> !Missing(cited, logs)
  {
    if !Available(cited, logs) {
      forall j | 0 <= j < |logs| ensures Exceeds(cited, logs[j]) { assert !Admits(logs[j], cited); }
    }
  }

  lemma UnknownMeansNotContained<T>(s: seq<T>, known: set<T>)
    ensures Elements(s) - known == {} <==> !HasUnknown(s, known)
  {
    KnownMeansContained(s, known);
    if i :| 0 <= i < |s| && s[i] !in known { assert s[i] in s; }
    if x :| x in s && x !in known {
      var i :| 0 <= i < |s| && s[i] == x;
      assert s[i] !in known;
    }
  }

  lemma UnknownIds(c: Citations, context: Context)
    ensures KnownIds(c, context) <==> !CitesUnknown(c, context)
  {
    UnknownMeansNotContained(c.jobs, context.jobs);
    UnknownMeansNotContained(c.steps, context.steps);
    UnknownMeansNotContained(c.tests, context.tests);
    UnknownMeansNotContained(c.metrics, context.metrics);
  }

  /** The error is the first fault of the first faulty item, and findings come before recommendations. */
  lemma FirstFaultIsRaised(report: Report, context: Context)
    requires ValidateGrounding(report, context).Some?
    ensures var e, n := ValidateGrounding(report, context).value, |report.findings|;
            && e.item < n + |report.recommendations|
            && (forall i :: 0 <= i < n && i < e.item ==> Grounded(report.findings[i].evidence, context))
            && (forall i :: 0 <= i < e.item - n ==> Grounded(report.recommendations[i].evidence, context))
            && var item := if e.item < n then report.findings[e.item] else report.recommendations[e.item - n];
               FaultOf(item.evidence, context) == Some(e.fault)
  {
    var items, n := report.findings + report.recommendations, |report.findings|;
    var e := ValidateGrounding(report, context).value;
    forall i | 0 <= i < e.item ensures Grounded(items[i].evidence, context) {
      NoFaultMeansGrounded(items[i].evidence, context);
    }
    forall i | 0 <= i < n && i < e.item ensures Grounded(report.findings[i].evidence, context) {
      assert items[i] == report.findings[i];
    }
    forall i | 0 <= i < e.item - n ensures Grounded(report.recommendations[i].evidence, context) {
      assert items[n + i] == report.recommendations[i];
    }
  }

  predicate AllGrounded(items: seq<Item>, context: Context) {
    forall i :: 0 <= i < |items| ==> Grounded(items[i].evidence, context)
  }

  /** A report is accepted exactly if every finding and every recommendation is grounded. */
  lemma AcceptedIffGrounded(report: Report, context: Context)
    ensures ValidateGrounding(report, context).None? <==>
            AllGrounded(report.findings, context) && AllGrounded(report.recommendations, context)
  {
    var items := report.findings + report.recommendations;
    forall i | 0 <= i < |items|
      ensures FaultOf(items[i].evidence, context).None? <==> Grounded(items[i].evidence, context)
    {
      NoFaultMeansGrounded(items[i].evidence, context);
    }
    if ValidateGrounding(report, context).None? {
      forall i | 0 <= i < |report.recommendations| ensures Grounded(report.recommendations[i].evidence, context) {
        assert items[|report.findings| + i] == report.recommendations[i];
      }
      forall i | 0 <= i < |report.findings| ensures Grounded(report.findings[i].evidence, context) {
        assert items[i] == report.findings[i];
      }
    }
  }

  // ---- End to end ----

  /** Every line number a range cites. */
  predicate Cites(cited: LogRange, n: int) {
    cited.start <= n <= cited.end
  }

  /**
   * An available range, against what an extraction selected, cites only lines that are within two
   * lines of a marked line in a readable entry of the cited name.
   */
  lemma AvailableLinesAreEvidence(
    archive: seq<Entry>, logs: seq<Range>, cited: LogRange, maxLines: int, maxBytes: int, n: int)
    requires IsSelection(logs, Candidates(archive), maxLines, maxBytes)
    requires Available(cited, logs) && Cites(cited, n)
    ensures LineIsEvidence(archive, cited.source, n)
  {
    var i :| 0 <= i < |logs| && Admits(logs[i], cited);
    assert logs[i] == Candidates(archive)[i];
    CandidateLinesAreEvidence(archive, i, n);
  }

  ghost predicate CitesEvidence(items: seq<Item>, archive: seq<Entry>) {
    forall i, j, n :: 0 <= i < |items| && 0 <= j < |items[i].evidence.logs| && Cites(items[i].evidence.logs[j], n) ==>
      LineIsEvidence(archive, items[i].evidence.logs[j].source, n)
  }

  lemma GroundedItemsCiteEvidence(items: seq<Item>, context: Context, archive: seq<Entry>, maxLines: int, maxBytes: int)
    requires AllGrounded(items, context) && IsSelection(context.logs, Candidates(archive), maxLines, maxBytes)
    ensures CitesEvidence(items, archive)
  {
    forall i, j, n | 0 <= i < |items| && 0 <= j < |items[i].evidence.logs| && Cites(items[i].evidence.logs[j], n)
      ensures LineIsEvidence(archive, items[i].evidence.logs[j].source, n)
    {
      assert Available(items[i].evidence.logs[j], context.logs);
      AvailableLinesAreEvidence(archive, context.logs, items[i].evidence.logs[j], maxLines, maxBytes, n);
    }
  }

  /** An accepted report cites only known ids and only evidence lines of the archive. */
  lemma AcceptedReportsAreGrounded(report: Report, context: Context, archive: seq<Entry>, maxLines: int, maxBytes: int)
    requires IsSelection(context.logs, Candidates(archive), maxLines, maxBytes)
    requires ValidateGrounding(report, context).None?
    ensures AllGrounded(report.findings, context) && AllGrounded(report.recommendations, context)
    ensures CitesEvidence(report.findings, archive) && CitesEvidence(report.recommendations, archive)
  {
    AcceptedIffGrounded(report, context);
    GroundedItemsCiteEvidence(report.findings, context, archive, maxLines, maxBytes);
    GroundedItemsCiteEvidence(report.recommendations, context, archive, maxLines, maxBytes);
  }

  // ---- Inverted ranges ----

  /** The limits the settings allow. */
  predicate Configured(maxLines: int, maxBytes: int) {
    1 <= maxLines <= 1000 && maxBytes >= 1024
  }

  ghost predicate IsArchive(archive: seq<Entry>) {
    forall k :: 0 <= k < |archive| ==> IsText(archive[k])
  }

  /** What an extraction may have supplied from this archive under some limits. */
  ghost predicate Supplies(archive: seq<Entry>, logs: seq<Range>) {
    && IsArchive(archive)
    && exists maxLines, maxBytes :: Configured(maxLines, maxBytes) && Extracts(archive, maxLines, maxBytes, logs)
  }

  ghost predicate EndsAreEvidence(archive: seq<Entry>, cited: LogRange) {
    LineIsEvidence(archive, cited.source, cited.start) && LineIsEvidence(archive, cited.source, cited.end)
  }

  /** The longest file that is read holds an error line on its last line, and only line breaks before it. */
  const MAX_CITED_LINE := MAX_ENTRY_BYTES - MIN_MARKER_BYTES + 1

  // ---- A log that fails on its last line ----

  /** The word "fail". */
  function FailLine(): Line {
    Line(true, 4, [102, 97, 105, 108])
  }

  function FailingLog(name: string, n: nat): Entry {
    Entry(name, false, n + MIN_MARKER_BYTES - 1, seq(n, i requires 0 <= i < n =>
      if i == n - 1 then FailLine() else Line(false, 0, [])))
  }

  lemma {:induction false} BlankLines(lines: seq<Line>, k: nat)
    requires k <= |lines| && forall i :: 0 <= i < k ==> lines[i] == Line(false, 0, [])
    ensures TextSize(lines, k) == k && Windows(lines, k) == []
  {
    if k > 0 { BlankLines(lines, k - 1); }
  }

  lemma {:induction false} FailingLogIsText(name: string, n: Positive)
    requires n <= MAX_CITED_LINE && !UnsafePath(name)
    ensures var e := FailingLog(name, n);
            && IsText(e) && Readable(e) && Windows(e.lines, n) == [Window(Max(0, n - 1 - CONTEXT_LINES), n)]
  {
    var e := FailingLog(name, n);
    var last := n - 1;
    assert e.lines[last] == FailLine();
    assert forall i :: 0 <= i < last ==> e.lines[i] == Line(false, 0, []);
    BlankLines(e.lines, last);
    assert TextSize(e.lines, n) == TextSize(e.lines, last) + 5;
  }

  lemma {:induction false} FailingLogRange(name: string, n: Positive)
    requires n <= MAX_CITED_LINE && !UnsafePath(name)
    ensures var all := Candidates([FailingLog(name, n)]);
            && |all| == 1 && all[0].source == name && all[0].start == Max(1, n - CONTEXT_LINES) && all[0].end == n
            && |all[0].text| <= 6
  {
    var archive := [FailingLog(name, n)];
    var e := archive[0];
    FailingLogIsText(name, n);
    WindowsInFile(e);
    RangeAt(e, Windows(e.lines, n), 1, 0);
    assert Flatten(Parts(archive), 1) == Flatten(Parts(archive), 0) + Parts(archive)[0];
    ShortText(e.lines[Max(0, n - 1 - CONTEXT_LINES)..n]);
  }

  /** At most two blank lines and the word: six bytes. */
  lemma {:induction false} ShortText(lines: seq<Line>)
    requires 1 <= |lines| <= 3 && lines[|lines| - 1] == FailLine()
    requires forall i :: 0 <= i < |lines| - 1 ==> lines[i] == Line(false, 0, [])
    ensures |Joined(lines)| == |lines| + 3
    decreases |lines|
  {
    if |lines| > 1 { ShortText(lines[1..]); }
  }

  /** With the default limits the log's one range is extracted. */
  lemma {:induction false} FailingLogIsSupplied(name: string, n: Positive)
    requires n <= MAX_CITED_LINE && !UnsafePath(name)
    ensures Supplies([FailingLog(name, n)], Candidates([FailingLog(name, n)]))
  {
    var archive := [FailingLog(name, n)];
    var all := Candidates(archive);
    FailingLogIsText(name, n);
    FailingLogRange(name, n);
    assert DataSize(Weights(archive), 1) == DataSize(Weights(archive), 0) + Weights(archive)[0];
    assert TotalLines(all, 1) == TotalLines(all, 0) + LinesOf(all[0]);
    assert TotalBytes(all, 1) == TotalBytes(all, 0) + |all[0].text|;
    assert Configured(200, 65536) && Extracts(archive, 200, 65536, all);
  }

  // ---- When both ends of a citation are evidence ----

  /** An inverted range is available from a log that ends where the range ends, before it starts. */
  lemma {:induction false} InvertedRangeIsAvailable(cited: LogRange)
    requires cited.end < cited.start && cited.end <= MAX_CITED_LINE && !UnsafePath(cited.source)
    ensures var archive := [FailingLog(cited.source, cited.end)];
            && Supplies(archive, Candidates(archive)) && Available(cited, Candidates(archive))
            && !LineIsEvidence(archive, cited.source, cited.start)
  {
    FailingLogIsSupplied(cited.source, cited.end);
    FailingLogRange(cited.source, cited.end);
    assert Admits(Candidates([FailingLog(cited.source, cited.end)])[0], cited);
  }

  /** An available range ends in a readable entry of its name that has an error line. */
  lemma AvailableRangeHasEntry(archive: seq<Entry>, logs: seq<Range>, cited: LogRange) returns (k: int, n: int)
    requires Supplies(archive, logs) && Available(cited, logs)
    ensures 0 <= k < |archive| && IsEvidence(archive[k], cited.source, n) && cited.end <= n
  {
    var maxLines, maxBytes :| Configured(maxLines, maxBytes) && Extracts(archive, maxLines, maxBytes, logs);
    var i :| 0 <= i < |logs| && Admits(logs[i], cited);
    CandidatesAreProper(archive);
    n := logs[i].end;
    CandidateLinesAreEvidence(archive, i, n);
    k :| 0 <= k < |archive| && IsEvidence(archive[k], cited.source, n);
  }

  /** Unsafe names are not extracted, and no entry that is read has so many lines. */
  lemma OutOfReachIsUnavailable(archive: seq<Entry>, logs: seq<Range>, cited: LogRange)
    requires Supplies(archive, logs) && (UnsafePath(cited.source) || cited.end > MAX_CITED_LINE)
    ensures !Available(cited, logs)
  {
    if Available(cited, logs) {
      var k, n := AvailableRangeHasEntry(archive, logs, cited);
      var e := archive[k];
      var m :| 0 <= m < |e.lines| && e.lines[m].marked && Near(m, n - 1);
      MarkedFilesAreLarger(e, m);
    }
  }

  lemma OrderedEndsAreEvidence(archive: seq<Entry>, logs: seq<Range>, cited: LogRange)
    requires Supplies(archive, logs) && Available(cited, logs) && cited.start <= cited.end
    ensures EndsAreEvidence(archive, cited)
  {
    var maxLines, maxBytes :| Configured(maxLines, maxBytes) && Extracts(archive, maxLines, maxBytes, logs);
    AvailableLinesAreEvidence(archive, logs, cited, maxLines, maxBytes, cited.start);
    AvailableLinesAreEvidence(archive, logs, cited, maxLines, maxBytes, cited.end);
  }

  /** Wherever the range is available, both its ends are evidence. */
  ghost predicate EndsAlwaysEvidence(cited: LogRange) {
    forall archive, logs :: Supplies(archive, logs) && Available(cited, logs) ==> EndsAreEvidence(archive, cited)
  }

  /**
   * Nothing checks that start <= end. For every cited range: in every archive and extraction that make
   * it available both its ends are evidence, exactly if it is not inverted, or it is out of reach of
   * every extraction because its source is unsafe or its end lies past the lines an entry can have.
   */
  lemma {:induction false} EndsAreEvidenceIffOrdered(cited: LogRange)
    ensures EndsAlwaysEvidence(cited) <==>
            cited.start <= cited.end || UnsafePath(cited.source) || cited.end > MAX_CITED_LINE
  {
    if cited.start <= cited.end || UnsafePath(cited.source) || cited.end > MAX_CITED_LINE {
      forall archive, logs | Supplies(archive, logs) && Available(cited, logs) ensures EndsAreEvidence(archive, cited) {
        if cited.start <= cited.end {
          OrderedEndsAreEvidence(archive, logs, cited);
        } else {
          OutOfReachIsUnavailable(archive, logs, cited);
        }
      }
    } else {
      InvertedRangeIsAvailable(cited);
      assert !EndsAreEvidence([FailingLog(cited.source, cited.end)], cited);
    }
  }

  /** Such a range is accepted: lines 9 to 5 of a log that has five lines and fails on the last. */
  lemma {:induction false} InvertedRangeIsAccepted()
    ensures var archive := [FailingLog("build", 5)];
            var context := Context({}, {}, {}, {}, Candidates(archive));
            var report := Report([Item("slow", Citations([], [], [], [LogRange("build", 9, 5)], []))], []);
            && Supplies(archive, context.logs) && ValidateGrounding(report, context).None?
            && !LineIsEvidence(archive, "build", 9)
  {
    var archive := [FailingLog("build", 5)];
    var context := Context({}, {}, {}, {}, Candidates(archive));
    var c := Citations([], [], [], [LogRange("build", 9, 5)], []);
    BuildIsSafe();
    InvertedRangeIsAvailable(LogRange("build", 9, 5));
    assert Grounded(c, context);
    AcceptedIffGrounded(Report([Item("slow", c)], []), context);
  }

  lemma {:induction false} BuildIsSafe()
    ensures !UnsafePath("build")
  {
    SafePathsStayInside("build");
  }
}
