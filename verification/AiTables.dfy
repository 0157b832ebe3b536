/** The two tables of the AI worker, `ai_reports` and `ai_event_receipts`, and its transactions on them. */
module AiTables {
  import opened Basics
  import opened Wrappers

  datatype Kind = BuildSummary | FailureAnalysis | WeeklyDigest | RepoHealth

  datatype Status = Pending | Processing | Completed | Failed

  /** Accumulated usage of a report, or the usage of one model call. Cost is in millionths of a dollar. */
  datatype Usage = Usage(inputTokens: nat, outputTokens: nat, cost: nat, latency: nat)

  function Nothing(): Usage {
    Usage(0, 0, 0, 0)
  }

  function Add(a: Usage, b: Usage): Usage {
    Usage(a.inputTokens + b.inputTokens, a.outputTokens + b.outputTokens, a.cost + b.cost, a.latency + b.latency)
  }

  /** `month` is the calendar month of `requestedAt`. Rows are identified by their position. */
  datatype Report = Report(
    run: Option<int>, repository: int, kind: Kind, status: Status, requestedAt: int, month: int, usage: Usage)

  datatype Receipt = Receipt(event: int, status: Status, report: Option<nat>, attempts: nat)

  datatype Tables = Tables(reports: seq<Report>, receipts: seq<Receipt>)

  datatype Clock = Clock(now: int, month: int)

  datatype Claim = Claim(report: nat, receipt: Option<nat>)

  // ---- Transactions ----

  predicate HasEvent(t: Tables, event: int) {
    exists i :: 0 <= i < |t.receipts| && t.receipts[i].event == event
  }

  predicate IsReportFor(r: Report, run: int, kind: Kind) {
    r.run == Some(run) && r.kind == kind
  }

  predicate HasReport(t: Tables, run: Option<int>, kind: Kind) {
    run.Some? && exists i :: 0 <= i < |t.reports| && IsReportFor(t.reports[i], run.value, kind)
  }

  /** A report as it is first stored: not started, and nothing used. */
  function NewReport(run: Option<int>, repository: int, kind: Kind, clock: Clock): (r: Report)
    ensures r.status == Pending && r.requestedAt == clock.now && r.month == clock.month
    ensures r.usage.inputTokens == r.usage.outputTokens == r.usage.cost == r.usage.latency == 0
  {
    Report(run, repository, kind, Pending, clock.now, clock.month, Nothing())
  }

  /** One delivery of one event; `kind` is None for an event that asks for no report. */
  function ClaimEvent(t: Tables, event: int, kind: Option<Kind>, run: Option<int>, repository: int, clock: Clock)
    : (Tables, Option<Claim>)
  {
    if HasEvent(t, event) then (t, None)
    else if kind.None? || HasReport(t, run, kind.value) then
      (t.(receipts := t.receipts + [Receipt(event, Completed, None, 0)]), None)
    else
      (Tables(t.reports + [NewReport(run, repository, kind.value, clock)],
              t.receipts + [Receipt(event, Pending, Some(|t.reports|), 0)]),
       Some(Claim(|t.reports|, Some(|t.receipts|))))
  }

  /** A manual retrigger of (run, kind): a new report, or a failed one reset to pending; else an error. */
  function Retrigger(t: Tables, run: int, kind: Kind, repository: int, clock: Clock): (Tables, Option<Claim>) {
    if i :| 0 <= i < |t.reports| && IsReportFor(t.reports[i], run, kind) && t.reports[i].status == Failed
            && forall j :: 0 <= j < i ==> !(IsReportFor(t.reports[j], run, kind) && t.reports[j].status == Failed)
    then (t.(reports := t.reports[i := t.reports[i].(status := Pending)]), Some(Claim(i, None)))
    else if HasReport(t, Some(run), kind) then (t, None)
    else (t.(reports := t.reports + [NewReport(Some(run), repository, kind, clock)]), Some(Claim(|t.reports|, None)))
  }

  /** A scheduled report, at most one per repository and kind since `periodStart`. */
  function ClaimScheduled(
    t: Tables, repository: int, kind: Kind, periodStart: int, clock: Clock): (Tables, Option<Claim>) {
    if exists i :: 0 <= i < |t.reports| && t.reports[i].repository == repository && t.reports[i].kind == kind
                   && t.reports[i].requestedAt >= periodStart
    then (t, None)
    else (t.(reports := t.reports + [NewReport(None, repository, kind, clock)]), Some(Claim(|t.reports|, None)))
  }

  /** A claim names a report, and its receipt (if any) is linked to that report. */
  predicate ClaimOk(t: Tables, c: Claim) {
    && c.report < |t.reports|
    && (c.receipt.Some? ==> c.receipt.value < |t.receipts| && t.receipts[c.receipt.value].report == Some(c.report))
  }

  function TouchReceipt(t: Tables, c: Claim, status: Status, attempts: nat): seq<Receipt>
    requires ClaimOk(t, c)
  {
    if c.receipt.None? then t.receipts
    else
      var i := c.receipt.value;
      t.receipts[i := t.receipts[i].(status := status, attempts := t.receipts[i].attempts + attempts)]
  }

  function MarkProcessing(t: Tables, c: Claim): Tables
    requires ClaimOk(t, c)
  {
    var r := t.reports[c.report];
    Tables(if r.status == Completed then t.reports else t.reports[c.report := r.(status := Processing)],
           TouchReceipt(t, c, Processing, 1))
  }

  function CompleteReport(t: Tables, c: Claim, usage: Usage): Tables
    requires ClaimOk(t, c)
  {
    var r := t.reports[c.report];
    Tables(t.reports[c.report := r.(status := Completed, usage := Add(r.usage, usage))],
           TouchReceipt(t, c, Completed, 0))
  }

  /** There is no status guard: a failure may overwrite any status, but usage only accumulates. */
  function FailReport(t: Tables, c: Claim, usage: Usage): Tables
    requires ClaimOk(t, c)
  {
    var r := t.reports[c.report];
    Tables(t.reports[c.report := r.(status := Failed, usage := Add(r.usage, usage))],
           TouchReceipt(t, c, Failed, 0))
  }

  // ---- Recovery: a left join of reports with their receipts ----

  predicate Recoverable(t: Tables, r: nat, stale: set<nat>) {
    r < |t.reports| && (t.reports[r].status == Pending || (t.reports[r].status == Processing && r in stale))
  }

  /** The receipts among the first n that point at report r, as claims. */
  function Matches(t: Tables, r: nat, n: nat): seq<Claim>
    requires n <= |t.receipts|
  {
    if n == 0 then []
    else Matches(t, r, n - 1) + if t.receipts[n - 1].report == Some(r) then [Claim(r, Some(n - 1))] else []
  }

  function JoinRow(t: Tables, r: nat): seq<Claim> {
    var matches := Matches(t, r, |t.receipts|);
    if matches == [] then [Claim(r, None)] else matches
  }

  /** The joined rows for reports in the order the query visits them. */
  function Join(t: Tables, ids: seq<nat>): seq<Claim> {
    if ids == [] then [] else JoinRow(t, ids[0]) + Join(t, ids[1..])
  }

  const RECOVERY_LIMIT: nat := 10

  function Limit(claims: seq<Claim>): seq<Claim> {
    if |claims| <= RECOVERY_LIMIT then claims else claims[..RECOVERY_LIMIT]
  }

  function RecoverClaim(t: Tables, c: Claim): Tables
    requires ClaimOk(t, c)
  {
    Tables(t.reports[c.report := t.reports[c.report].(status := Processing)], TouchReceipt(t, c, Processing, 1))
  }

  predicate HandedOut(claims: seq<Claim>, r: nat) {
    exists i :: 0 <= i < |claims| && claims[i].report == r
  }

  predicate DistinctReports(batch: seq<Claim>) {
    forall i, j :: 0 <= i < j < |batch| ==> batch[i].report != batch[j].report
  }

  // ---- Integrity ----

  predicate Open(r: Receipt) {
    r.status == Pending || r.status == Processing
  }

  ghost predicate LinksInjective(t: Tables) {
    forall i, j :: 0 <= i < j < |t.receipts| && t.receipts[i].report.Some? ==>
      t.receipts[i].report != t.receipts[j].report
  }

  ghost predicate ReceiptsOk(t: Tables) {
    && (forall i, j :: 0 <= i < j < |t.receipts| ==> t.receipts[i].event != t.receipts[j].event)
    && LinksInjective(t)
    && (forall i :: 0 <= i < |t.receipts| ==>
          && (t.receipts[i].report.Some? ==> t.receipts[i].report.value < |t.reports|)
          && (Open(t.receipts[i]) ==> t.receipts[i].report.Some?))
  }

  predicate SameSubject(a: Report, b: Report) {
    a.run.Some? && a.run == b.run && a.kind == b.kind
  }

  ghost predicate ReportsOk(t: Tables) {
    forall i, j :: 0 <= i < j < |t.reports| ==> !SameSubject(t.reports[i], t.reports[j])
  }

  /**
   * At most one receipt per event, one report per (run, kind), links injective, and every pending
   * or processing receipt linked to a report.
   */
  ghost predicate Integrity(t: Tables) {
    ReceiptsOk(t) && ReportsOk(t)
  }

  /** t' differs from t only in statuses, attempts and usage; any receipt it opens is linked. */
  ghost predicate Touches(t: Tables, t': Tables) {
    && |t'.reports| == |t.reports| && |t'.receipts| == |t.receipts|
    && (forall i :: 0 <= i < |t.reports| ==>
          t'.reports[i].run == t.reports[i].run && t'.reports[i].kind == t.reports[i].kind)
    && (forall i :: 0 <= i < |t.receipts| ==>
          && t'.receipts[i].event == t.receipts[i].event
          && t'.receipts[i].report == t.receipts[i].report
          && (Open(t'.receipts[i]) ==> Open(t.receipts[i]) || t.receipts[i].report.Some?))
  }

  lemma TouchesKeepIntegrity(t: Tables, t': Tables)
    requires Integrity(t) && Touches(t, t')
    ensures Integrity(t')
    ensures forall c :: ClaimOk(t, c) ==> ClaimOk(t', c)
  {}

  lemma TransactionsTouch(t: Tables, c: Claim, usage: Usage)
    requires ClaimOk(t, c)
    ensures Touches(t, MarkProcessing(t, c))
    ensures Touches(t, CompleteReport(t, c, usage))
    ensures Touches(t, FailReport(t, c, usage))
    ensures Touches(t, RecoverClaim(t, c))
  {}

  /** What the statements set: of the report its status and its usage columns, of the receipt status and attempts. */
  ghost predicate Sets(t: Tables, t': Tables, c: Claim, status: Status, usage: Usage, attempts: nat)
    requires ClaimOk(t, c)
  {
    var r := t.reports[c.report];
    && t'.reports == t.reports[c.report := r.(status := status, usage := Usage(
         r.usage.inputTokens + usage.inputTokens, r.usage.outputTokens + usage.outputTokens,
         r.usage.cost + usage.cost, r.usage.latency + usage.latency))]
    && t'.receipts == match c.receipt
         case None => t.receipts
         case Some(j) =>
           t.receipts[j := t.receipts[j].(status := status, attempts := t.receipts[j].attempts + attempts)]
  }

  /**
   * Starting or recovering a report is one more attempt on its receipt and costs nothing; completing or
   * failing it adds the usage and no attempt. Starting a completed report leaves the report as it is.
   */
  lemma TransactionEffects(t: Tables, c: Claim, usage: Usage)
    requires ClaimOk(t, c)
    ensures Sets(t, RecoverClaim(t, c), c, Processing, Usage(0, 0, 0, 0), 1)
    ensures Sets(t, CompleteReport(t, c, usage), c, Completed, usage, 0)
    ensures Sets(t, FailReport(t, c, usage), c, Failed, usage, 0)
    ensures t.reports[c.report].status != Completed ==>
              Sets(t, MarkProcessing(t, c), c, Processing, Usage(0, 0, 0, 0), 1)
    ensures t.reports[c.report].status == Completed ==> MarkProcessing(t, c).reports == t.reports
    ensures MarkProcessing(t, c).receipts == RecoverClaim(t, c).receipts
  {}

  /** Claims survive every later insertion. */
  ghost predicate Extends(t: Tables, t': Tables) {
    && |t.reports| <= |t'.reports| && |t.receipts| <= |t'.receipts|
    && forall i :: 0 <= i < |t.receipts| ==> t'.receipts[i].report == t.receipts[i].report
  }

  /**
   * A delivery or redelivery keeps integrity. It hands out a claim exactly for a new event that asks
   * for a report nobody has, the fresh report can be recovered at once, and any other new event is closed.
   */
  lemma ClaimEventKeepsIntegrity(
    t: Tables, event: int, kind: Option<Kind>, run: Option<int>, repository: int, clock: Clock)
    requires Integrity(t)
    ensures var (t', c) := ClaimEvent(t, event, kind, run, repository, clock);
            && Integrity(t') && Extends(t, t')
            && HasEvent(t', event)
            && (HasEvent(t, event) ==> t' == t && c == None)
            && (c.Some? <==> !HasEvent(t, event) && kind.Some? && !HasReport(t, run, kind.value))
            && (c.Some? ==>
                  && ClaimOk(t', c.value) && c.value == Claim(|t.reports|, Some(|t.receipts|))
                  && t'.reports == t.reports + [NewReport(run, repository, kind.value, clock)]
                  && t'.receipts == t.receipts + [Receipt(event, Pending, Some(|t.reports|), 0)]
                  && Recoverable(t', |t.reports|, {}))
            && (c.Some? && run.Some? ==> HasReport(t', run, kind.value))
            && (c.None? ==> t'.reports == t.reports)
            && (c.None? ==> forall i :: |t.receipts| <= i < |t'.receipts| ==> !Open(t'.receipts[i]))
  {
    var (t', c) := ClaimEvent(t, event, kind, run, repository, clock);
    if !HasEvent(t, event) {
      var last := |t.receipts|;
      assert t'.receipts[last].event == event;
    }
    if c.Some? && run.Some? {
      assert IsReportFor(t'.reports[|t.reports|], run.value, kind.value);
    }
  }

  /** Report i has been retriggered: reset and handed out if it had failed, and else left alone. */
  ghost predicate Retriggered(t: Tables, t': Tables, c: Option<Claim>, i: nat)
    requires i < |t.reports|
  {
    if t.reports[i].status == Failed then
      t'.reports == t.reports[i := t.reports[i].(status := Pending)] && c == Some(Claim(i, None))
    else t' == t && c == None
  }

  /**
   * A retrigger keeps integrity and never touches a report that is pending, processing or completed: if that
   * is the report of (run, kind), nothing changes and nothing is handed out. A failed report of (run, kind) is
   * pending again and handed out, and if there is no report at all a new one is.
   */
  lemma RetriggerKeepsIntegrity(t: Tables, run: int, kind: Kind, repository: int, clock: Clock)
    requires Integrity(t)
    ensures var (t', c) := Retrigger(t, run, kind, repository, clock);
            && Integrity(t') && Extends(t, t')
            && (c.Some? ==> ClaimOk(t', c.value) && IsReportFor(t'.reports[c.value.report], run, kind))
            && (forall i :: 0 <= i < |t.reports| && t.reports[i].status != Failed ==> t'.reports[i] == t.reports[i])
            && (forall i :: 0 <= i < |t.reports| ==> t'.reports[i].usage == t.reports[i].usage)
            && (forall i :: 0 <= i < |t.reports| ==> t'.reports[i].month == t.reports[i].month)
            && t'.receipts == t.receipts
            && (forall i :: 0 <= i < |t.reports| && IsReportFor(t.reports[i], run, kind) ==>
                  Retriggered(t, t', c, i))
            && (!HasReport(t, Some(run), kind) ==>
                  && t'.reports == t.reports + [NewReport(Some(run), repository, kind, clock)]
                  && c == Some(Claim(|t.reports|, None)))
  {
    var (t', c) := Retrigger(t, run, kind, repository, clock);
    if |t'.reports| == |t.reports| {
      assert Touches(t, t');
      TouchesKeepIntegrity(t, t');
    }
    forall i | 0 <= i < |t.reports| && IsReportFor(t.reports[i], run, kind) ensures Retriggered(t, t', c, i) {
      OneReport(t, run, kind, i);
      FailedIsReset(t, run, kind, repository, clock, i);
    }
  }

  lemma OneReport(t: Tables, run: int, kind: Kind, i: nat)
    requires ReportsOk(t) && i < |t.reports| && IsReportFor(t.reports[i], run, kind)
    ensures forall j :: 0 <= j < |t.reports| && j != i ==> !IsReportFor(t.reports[j], run, kind)
  {
    forall j | 0 <= j < |t.reports| && IsReportFor(t.reports[j], run, kind) ensures j == i {
      assert SameSubject(t.reports[i], t.reports[j]) && SameSubject(t.reports[j], t.reports[i]);
    }
  }

  /** With one report for (run, kind), a retrigger finds it. */
  lemma FailedIsReset(t: Tables, run: int, kind: Kind, repository: int, clock: Clock, i: nat)
    requires i < |t.reports| && IsReportFor(t.reports[i], run, kind)
    requires forall j :: 0 <= j < |t.reports| && j != i ==> !IsReportFor(t.reports[j], run, kind)
    ensures Retriggered(t, Retrigger(t, run, kind, repository, clock).0,
                        Retrigger(t, run, kind, repository, clock).1, i)
  {
    assert HasReport(t, Some(run), kind);
  }

  /** Report i is one of this repository and kind, requested since the start of the period. */
  predicate IsSince(t: Tables, i: nat, repository: int, kind: Kind, periodStart: int) {
    && i < |t.reports| && t.reports[i].repository == repository && t.reports[i].kind == kind
    && t.reports[i].requestedAt >= periodStart
  }

  /**
   * A scheduled claim keeps integrity. It is handed out exactly if the period has no such report yet,
   * the period then has that one alone, and no later attempt in the period gets another.
   */
  lemma ScheduledKeepsIntegrity(t: Tables, repository: int, kind: Kind, periodStart: int, clock: Clock, later: Clock)
    requires Integrity(t)
    ensures var (t', c) := ClaimScheduled(t, repository, kind, periodStart, clock);
            && Integrity(t') && Extends(t, t') && t'.receipts == t.receipts
            && (c.Some? ==>
                  && ClaimOk(t', c.value) && Recoverable(t', c.value.report, {})
                  && c.value == Claim(|t.reports|, None)
                  && t'.reports == t.reports + [NewReport(None, repository, kind, clock)])
            && (c.Some? <==> forall i :: !IsSince(t, i, repository, kind, periodStart))
            && (c.None? ==> t' == t)
            && (c.Some? ==> forall i :: IsSince(t', i, repository, kind, periodStart) ==> i == c.value.report)
            && (periodStart <= clock.now ==> ClaimScheduled(t', repository, kind, periodStart, later) == (t', None))
  {
    var (t', c) := ClaimScheduled(t, repository, kind, periodStart, clock);
    if c.Some? {
      assert forall i :: 0 <= i < |t.reports| ==> !IsSince(t, i, repository, kind, periodStart);
      assert periodStart <= clock.now ==> IsSince(t', c.value.report, repository, kind, periodStart);
    } else {
      var i :| 0 <= i < |t.reports| && t.reports[i].repository == repository && t.reports[i].kind == kind
               && t.reports[i].requestedAt >= periodStart;
      assert IsSince(t, i, repository, kind, periodStart);
    }
  }

  // ---- One recovery batch never hands out a report twice ----

  /** No receipt among the first n belongs to report r. */
  predicate NoneLinks(t: Tables, r: nat, n: nat)
    requires n <= |t.receipts|
  {
    forall j :: 0 <= j < n ==> t.receipts[j].report != Some(r)
  }

  lemma {:induction false} MatchesAreLinks(t: Tables, r: nat, n: nat)
    requires LinksInjective(t) && n <= |t.receipts|
    ensures |Matches(t, r, n)| <= 1
    ensures Matches(t, r, n) == [] <==> NoneLinks(t, r, n)
    ensures Matches(t, r, n) != [] ==>
              var c := Matches(t, r, n)[0];
              c.report == r && c.receipt.Some? && c.receipt.value < n && t.receipts[c.receipt.value].report == Some(r)
  {
    if n > 0 {
      MatchesAreLinks(t, r, n - 1);
      var earlier := Matches(t, r, n - 1);
      if earlier != [] {
        assert t.receipts[earlier[0].receipt.value].report == Some(r);
        assert t.receipts[n - 1].report != Some(r);
      }
    }
  }

  /** A joined row of report r: a valid claim, without a receipt only if no receipt belongs to r. */
  ghost predicate RowFor(t: Tables, r: nat, c: Claim) {
    c.report == r && ClaimOk(t, c) && (c.receipt.None? <==> NoneLinks(t, r, |t.receipts|))
  }

  lemma {:induction false} JoinRowIsOne(t: Tables, r: nat)
    requires LinksInjective(t) && r < |t.reports|
    ensures |JoinRow(t, r)| == 1 && RowFor(t, r, JoinRow(t, r)[0])
  {
    MatchesAreLinks(t, r, |t.receipts|);
  }

  /** With injective links the left join yields exactly one row per report, in the same order. */
  lemma {:induction false} JoinIsOneToOne(t: Tables, ids: seq<nat>)
    requires ReceiptsOk(t) && forall i :: 0 <= i < |ids| ==> ids[i] < |t.reports|
    ensures |Join(t, ids)| == |ids|
    ensures forall i :: 0 <= i < |ids| ==> RowFor(t, ids[i], Join(t, ids)[i])
  {
    if ids != [] {
      JoinRowIsOne(t, ids[0]);
      JoinIsOneToOne(t, ids[1..]);
      forall i | 0 <= i < |ids| ensures RowFor(t, ids[i], Join(t, ids)[i]) {
        if i > 0 { assert Join(t, ids)[i] == Join(t, ids[1..])[i - 1]; }
      }
    }
  }

  lemma RecoveryBatchIsDistinct(t: Tables, ids: seq<nat>)
    requires Integrity(t) && Distinct(ids) && forall i :: 0 <= i < |ids| ==> ids[i] < |t.reports|
    ensures DistinctReports(Limit(Join(t, ids)))
  {
    JoinIsOneToOne(t, ids);
  }
}
