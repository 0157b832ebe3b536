/** The AI worker's own code: its database transactions and one `process` call, fault by fault. */
module AiService {
  import opened Basics
  import opened Wrappers
  import opened AiTables
  import opened AiBudget
  import opened AiBudgetProofs

  /** How the outside world answers during one `process` call. */
  datatype Outcomes = Outcomes(
    projected: Option<nat>,  // None: loading the context or counting tokens failed
    cap: nat,
    month: int,
    call: Option<Usage>,     // None: the model call failed
    grounded: bool,
    completes: bool,         // complete_report commits
    failsInLock: bool,       // fail_report under the lock commits
    unlocks: bool,
    failsLate: bool)         // the fallback fail_report commits

  predicate Admits(o: Outcomes, reports: seq<Report>) {
    o.projected.Some? && Spend(reports, o.month) + o.projected.value <= o.cap
  }

  /** How often the usage of the call is recorded. */
  function Charges(o: Outcomes, reports: seq<Report>): nat {
    if !Admits(o, reports) || o.call.None? then 0
    else if o.grounded && o.completes then 1
    else (if o.failsInLock then 1 else 0) + (if (!o.failsInLock || !o.unlocks) && o.failsLate then 1 else 0)
  }

  /** Another transaction of the claim's own report and receipt: everything else is as it was. */
  ghost predicate LeavesAlone(t: Tables, t': Tables, c: Claim)
    requires ClaimOk(t, c)
  {
    && |t'.reports| == |t.reports| && |t'.receipts| == |t.receipts|
    && (forall i :: 0 <= i < |t.reports| && i != c.report ==> t'.reports[i] == t.reports[i])
    && (forall j :: 0 <= j < |t.receipts| && c.receipt != Some(j) ==> t'.receipts[j] == t.receipts[j])
    && t'.reports[c.report]
       == t.reports[c.report].(status := t'.reports[c.report].status, usage := t'.reports[c.report].usage)
    && (c.receipt.Some? ==>
          var j := c.receipt.value;
          t'.receipts[j] == t.receipts[j].(status := t'.receipts[j].status, attempts := t'.receipts[j].attempts))
  }

  // ---- The recovery query ----

  predicate Due(t: Tables, r: nat, stale: set<nat>, locked: set<nat>) {
    Recoverable(t, r, stale) && r !in locked
  }

  predicate InOrder(t: Tables, ids: seq<nat>) {
    && (forall i :: 0 <= i < |ids| ==> ids[i] < |t.reports|)
    && forall i, j :: 0 <= i < j < |ids| ==> t.reports[ids[i]].requestedAt <= t.reports[ids[j]].requestedAt
  }

  /** `WHERE ... ORDER BY requested_at FOR UPDATE SKIP LOCKED`, before the join and the limit. */
  ghost predicate IsRecoveryOrder(t: Tables, ids: seq<nat>, stale: set<nat>, locked: set<nat>) {
    && Distinct(ids) && InOrder(t, ids)
    && forall r: nat :: r in ids <==> Due(t, r, stale, locked)
  }

  predicate NoLater(t: Tables, e: nat, r: nat) {
    e < |t.reports| && r < |t.reports| && t.reports[e].requestedAt <= t.reports[r].requestedAt
  }

  predicate IsEarliest(t: Tables, rest: set<nat>, e: nat) {
    e in rest && forall r :: r in rest ==> NoLater(t, e, r)
  }

  lemma {:induction false} EarliestExists(t: Tables, rest: set<nat>)
    requires rest != {} && forall r :: r in rest ==> r < |t.reports|
    ensures exists e :: IsEarliest(t, rest, e)
    decreases |rest|
  {
    var some :| some in rest;
    var others := rest - {some};
    if others == {} {
      assert rest == {some};
      assert IsEarliest(t, rest, some);
    } else {
      EarliestExists(t, others);
      var e :| IsEarliest(t, others, e);
      assert forall r :: r in rest ==> r == some || r in others;
      assert IsEarliest(t, rest, if NoLater(t, some, e) then some else e);
    }
  }

  method EarliestOf(t: Tables, rest: set<nat>) returns (e: nat)
    requires rest != {} && forall r :: r in rest ==> r < |t.reports|
    ensures IsEarliest(t, rest, e)
  {
    EarliestExists(t, rest);
    e :| e in rest && IsEarliest(t, rest, e);
  }

  /** `ids` and `rest` share out the due reports, the earlier ones in order first. */
  ghost predicate Sorting(t: Tables, ids: seq<nat>, rest: set<nat>, due: set<nat>) {
    && (forall r :: r in due ==> r < |t.reports|) && rest <= due
    && Distinct(ids) && InOrder(t, ids)
    && (forall r :: r in ids ==> r in due && r !in rest)
    && (forall r :: r in due ==> r in rest || r in ids)
    && (forall i, r :: 0 <= i < |ids| && r in rest ==> NoLater(t, ids[i], r))
  }

  /** Report r is among the claims, or all ten claims are of reports requested no later. */
  predicate HandedOutOrLater(t: Tables, claims: seq<Claim>, r: nat)
    requires r < |t.reports|
  {
    || HandedOut(claims, r)
    || (|claims| == RECOVERY_LIMIT
        && forall i :: 0 <= i < |claims| ==>
             claims[i].report < |t.reports| && t.reports[claims[i].report].requestedAt <= t.reports[r].requestedAt)
  }

  lemma RecoveryIsInOrder(t: Tables, ids: seq<nat>, stale: set<nat>, locked: set<nat>)
    requires Integrity(t) && IsRecoveryOrder(t, ids, stale, locked)
    ensures var claims := Limit(Join(t, ids));
            && |claims| <= RECOVERY_LIMIT
            && (forall i :: 0 <= i < |claims| ==> Due(t, claims[i].report, stale, locked))
            && (forall r: nat :: Due(t, r, stale, locked) ==> HandedOutOrLater(t, claims, r))
  {
    JoinIsOneToOne(t, ids);
    var claims := Limit(Join(t, ids));
    assert forall i :: 0 <= i < |claims| ==> claims[i] == Join(t, ids)[i] && claims[i].report == ids[i];
    forall r: nat | Due(t, r, stale, locked) ensures HandedOutOrLater(t, claims, r) {
      var i :| 0 <= i < |ids| && ids[i] == r;
      if i < |claims| { assert claims[i].report == r; }
    }
  }

  class AiDatabase {
    var reports: seq<Report>
    var receipts: seq<Receipt>

    ghost function Contents(): Tables
      reads this
    {
      Tables(reports, receipts)
    }

    constructor ()
      ensures Contents() == Tables([], [])
    {
      reports, receipts := [], [];
    }

    /** One delivery: the receipt is written first, and a repeated event id stops right there. */
    method ClaimEvent(event: int, kind: Option<Kind>, run: Option<int>, repository: int, clock: Clock)
      returns (claim: Option<Claim>)
      requires Integrity(Contents())
      modifies this
      ensures (Contents(), claim) == AiTables.ClaimEvent(old(Contents()), event, kind, run, repository, clock)
      ensures Integrity(Contents())
    {
      ClaimEventKeepsIntegrity(Contents(), event, kind, run, repository, clock);
      var repeated := exists i :: 0 <= i < |receipts| && receipts[i].event == event;
      if repeated {
        return None;
      }
      var receipt := |receipts|;
      receipts := receipts + [Receipt(event, Pending, None, 0)];
      if kind.None? {
        receipts := receipts[receipt := receipts[receipt].(status := Completed)];
        assert receipts == old(receipts) + [Receipt(event, Completed, None, 0)];
        return None;
      }
      var taken := run.Some? && exists i :: 0 <= i < |reports| && IsReportFor(reports[i], run.value, kind.value);
      if taken {
        receipts := receipts[receipt := receipts[receipt].(status := Completed)];
        assert receipts == old(receipts) + [Receipt(event, Completed, None, 0)];
        return None;
      }
      var report := |reports|;
      reports := reports + [NewReport(run, repository, kind.value, clock)];
      receipts := receipts[receipt := receipts[receipt].(report := Some(report))];
      assert receipts == old(receipts) + [Receipt(event, Pending, Some(report), 0)];
      claim := Some(Claim(report, Some(receipt)));
    }

    method MarkProcessing(c: Claim)
      requires ClaimOk(Contents(), c)
      modifies this
      ensures Contents() == AiTables.MarkProcessing(old(Contents()), c)
      ensures LeavesAlone(old(Contents()), Contents(), c) && reports[c.report].usage == old(reports)[c.report].usage
      ensures old(reports)[c.report].status == Completed ==> reports == old(reports)
    {
      if reports[c.report].status != Completed {
        reports := reports[c.report := reports[c.report].(status := Processing)];
      }
      UpdateReceipt(c, Processing, 1);
    }

    method CompleteReport(c: Claim, usage: Usage)
      requires ClaimOk(Contents(), c)
      modifies this
      ensures Contents() == AiTables.CompleteReport(old(Contents()), c, usage)
      ensures LeavesAlone(old(Contents()), Contents(), c) && StatusIs(Contents(), c, Completed)
    {
      var r := reports[c.report];
      reports := reports[c.report := r.(status := Completed, usage := Add(r.usage, usage))];
      UpdateReceipt(c, Completed, 0);
    }

    method FailReport(c: Claim, usage: Option<Usage>)
      requires ClaimOk(Contents(), c)
      modifies this
      ensures Contents() == AiTables.FailReport(old(Contents()), c, UsageOf(usage))
      ensures LeavesAlone(old(Contents()), Contents(), c) && StatusIs(Contents(), c, Failed)
    {
      var r := reports[c.report];
      reports := reports[c.report := r.(status := Failed, usage := Add(r.usage, UsageOf(usage)))];
      UpdateReceipt(c, Failed, 0);
    }

    method UpdateReceipt(c: Claim, status: Status, attempts: nat)
      requires c.receipt.Some? ==> c.receipt.value < |receipts|
      modifies this`receipts
      ensures c.receipt.None? ==> receipts == old(receipts)
      ensures c.receipt.Some? ==>
                var i := c.receipt.value;
                var r := old(receipts)[i];
                receipts == old(receipts)[i := r.(status := status, attempts := r.attempts + attempts)]
    {
      if c.receipt.Some? {
        var i := c.receipt.value;
        receipts := receipts[i := receipts[i].(status := status, attempts := receipts[i].attempts + attempts)];
      }
    }

    /** The due reports nobody else has locked, in the order of their requests. */
    method SelectRecoverable(stale: set<nat>, locked: set<nat>) returns (ids: seq<nat>)
      ensures IsRecoveryOrder(Contents(), ids, stale, locked)
      ensures forall r: nat :: r in ids <==>
                && r < |reports| && r !in locked
                && (reports[r].status == Pending || (reports[r].status == Processing && r in stale))
    {
      var t := Tables(reports, receipts);
      var rest := set r: nat | r < |reports| && Due(t, r, stale, locked);
      ghost var due := rest;
      ids := [];
      while rest != {}
        invariant Sorting(t, ids, rest, due)
        decreases |rest|
      {
        var e := EarliestOf(t, rest);
        rest := rest - {e};
        ids := ids + [e];
      }
    }

    /**
     * One recovery transaction: the first ten rows of the join, by request time, become claims; a due
     * report is passed over only for ten that were requested no later.
     */
    method ClaimRecoverable(stale: set<nat>, locked: set<nat>) returns (claims: seq<Claim>)
      requires Integrity(Contents())
      modifies this
      ensures Contents() == RecoverAll(old(Contents()), claims)
      ensures DistinctReports(claims) && Integrity(Contents()) && |claims| <= 10
      ensures forall i :: 0 <= i < |claims| ==> StatusIs(Contents(), claims[i], Processing)
      ensures forall i :: 0 <= i < |claims| ==>
                var r := claims[i].report;
                && r < |old(reports)| && r !in locked
                && (old(reports)[r].status == Pending || (old(reports)[r].status == Processing && r in stale))
      ensures forall r: nat ::
                (&& r < |old(reports)| && r !in locked
                 && (old(reports)[r].status == Pending || (old(reports)[r].status == Processing && r in stale))
                 && !HandedOut(claims, r)) ==> |claims| == 10
      ensures forall r: nat :: Due(old(Contents()), r, stale, locked) ==> HandedOutOrLater(old(Contents()), claims, r)
    {
      var ids := SelectRecoverable(stale, locked);
      RecoveryIsSound(Contents(), ids);
      RecoveryIsInOrder(Contents(), ids, stale, locked);
      var rows := Limit(Join(Tables(reports, receipts), ids));
      claims := UpdateRows(rows);
    }

    /** The loop over the fetched rows. */
    method UpdateRows(rows: seq<Claim>) returns (claims: seq<Claim>)
      requires forall k :: 0 <= k < |rows| ==> ClaimOk(Contents(), rows[k])
      modifies this
      ensures claims == rows && Contents() == RecoverAll(old(Contents()), rows)
    {
      claims := [];
      for i := 0 to |rows|
        invariant claims == rows[..i]
        invariant forall k :: 0 <= k < |rows| ==> ClaimOk(Contents(), rows[k])
        invariant RecoverAll(Contents(), rows[i..]) == RecoverAll(old(Contents()), rows)
      {
        assert rows[i..][0] == rows[i] && rows[i..][1..] == rows[i + 1..];
        reports := reports[rows[i].report := reports[rows[i].report].(status := Processing)];
        UpdateReceipt(rows[i], Processing, 1);
        claims := claims + [rows[i]];
      }
    }

    /** `ReportProcessor.process`, with its `generated` and `committed` flags. */
    method Process(c: Claim, alreadyProcessing: bool, o: Outcomes) returns (charges: nat)
      requires ClaimOk(Contents(), c)
      modifies this
      ensures Contents() == Processed(old(Contents()), c, alreadyProcessing, o)
      ensures charges == Charges(o, old(reports))
    {
      if !alreadyProcessing {
        MarkingKeepsSpend(Contents(), c, o.month);
        MarkProcessing(c);
      }
      charges := ProcessMarked(c, o);
    }

    /** The try block and its handlers. */
    method ProcessMarked(c: Claim, o: Outcomes) returns (charges: nat)
      requires ClaimOk(Contents(), c)
      modifies this
      ensures Contents() == ProcessedMarked(old(Contents()), c, o)
      ensures charges == Charges(o, old(reports))
    {
      FailTimesUnrolled(Contents(), c, UsageOf(AdmittedCall(o, reports)));
      var generated: Option<Usage> := None;
      var committed, escaped := false, false;
      charges := 0;
      if o.projected.None? {
        escaped := true;
      } else {
        var failed := true;
        if Spend(reports, o.month) + o.projected.value <= o.cap {
          generated := o.call;
          if generated.Some? && o.grounded && o.completes {
            CompleteReport(c, generated.value);
            committed, failed, charges := true, false, 1;
          }
        }
        if failed {
          if o.failsInLock {
            FailReport(c, generated);
            charges := if generated.Some? then 1 else 0;
          } else {
            escaped := true;
          }
        }
        if !o.unlocks {
          escaped := true;
        }
      }
      if escaped && !committed && o.failsLate {
        FailReport(c, generated);
        charges := charges + if generated.Some? then 1 else 0;
      }
    }
  }

  lemma MarkingKeepsSpend(t: Tables, c: Claim, month: int)
    requires ClaimOk(t, c)
    ensures Spend(AiTables.MarkProcessing(t, c).reports, month) == Spend(t.reports, month)
  {
    SpendSame(t.reports, AiTables.MarkProcessing(t, c).reports, month);
  }

  lemma RecoveryIsSound(t: Tables, ids: seq<nat>)
    requires Integrity(t) && Distinct(ids) && forall i :: 0 <= i < |ids| ==> ids[i] < |t.reports|
    ensures var rows := Limit(Join(t, ids));
            && DistinctReports(rows)
            && (forall i :: 0 <= i < |rows| ==> ClaimOk(t, rows[i]))
            && Integrity(RecoverAll(t, rows))
            && (forall i :: 0 <= i < |rows| ==> StatusIs(RecoverAll(t, rows), rows[i], Processing))
  {
    var rows := Limit(Join(t, ids));
    RecoveryBatchIsDistinct(t, ids);
    JoinIsOneToOne(t, ids);
    assert forall i :: 0 <= i < |rows| ==> rows[i] == Join(t, ids)[i];
    RecoverAllTouches(t, rows);
    TouchesKeepIntegrity(t, RecoverAll(t, rows));
    forall i | 0 <= i < |rows| ensures StatusIs(RecoverAll(t, rows), rows[i], Processing) {
      RecoverAllMarks(t, rows, i);
    }
  }

  /** A recovered claim, once marked, stays marked while the rest of the batch is. */
  lemma {:induction false} RecoverAllMarks(t: Tables, batch: seq<Claim>, i: nat)
    requires i < |batch| && forall k :: 0 <= k < |batch| ==> ClaimOk(t, batch[k])
    ensures StatusIs(RecoverAll(t, batch), batch[i], Processing)
    decreases |batch|
  {
    var t1 := RecoverClaim(t, batch[0]);
    assert forall k :: 0 <= k < |batch| ==> ClaimOk(t1, batch[k]);
    if i > 0 {
      RecoverAllMarks(t1, batch[1..], i - 1);
    } else {
      RecoverAllKeeps(t1, batch[1..], batch[0]);
    }
  }

  lemma {:induction false} RecoverAllKeeps(t: Tables, batch: seq<Claim>, c: Claim)
    requires StatusIs(t, c, Processing) && forall k :: 0 <= k < |batch| ==> ClaimOk(t, batch[k])
    ensures StatusIs(RecoverAll(t, batch), c, Processing)
    decreases |batch|
  {
    if batch != [] {
      var t1 := RecoverClaim(t, batch[0]);
      assert forall k :: 0 <= k < |batch| ==> ClaimOk(t1, batch[k]);
      RecoverAllKeeps(t1, batch[1..], c);
    }
  }

  /** The claimed report and its receipt, if it has one, both have this status. */
  predicate StatusIs(t: Tables, c: Claim, status: Status) {
    && ClaimOk(t, c) && t.reports[c.report].status == status
    && (c.receipt.Some? ==> t.receipts[c.receipt.value].status == status)
  }

  function UsageOf(call: Option<Usage>): Usage {
    if call.Some? then call.value else Nothing()
  }

  /** How many fail_report transactions commit when the report is not completed. */
  function Failures(o: Outcomes): nat {
    var inLock := o.projected.Some? && o.failsInLock;
    (if inLock then 1 else 0) + (if (!inLock || !o.unlocks) && o.failsLate then 1 else 0)
  }

  function FailTimes(t: Tables, c: Claim, usage: Usage, n: nat): (t': Tables)
    requires ClaimOk(t, c)
    ensures ClaimOk(t', c)
  {
    if n == 0 then t else AiTables.FailReport(FailTimes(t, c, usage, n - 1), c, usage)
  }

  lemma {:induction false} FailTimesUnrolled(t: Tables, c: Claim, usage: Usage)
    requires ClaimOk(t, c)
    ensures FailTimes(t, c, usage, 0) == t
    ensures FailTimes(t, c, usage, 1) == AiTables.FailReport(t, c, usage)
    ensures FailTimes(t, c, usage, 2) == AiTables.FailReport(FailTimes(t, c, usage, 1), c, usage)
  {}

  function AdmittedCall(o: Outcomes, reports: seq<Report>): Option<Usage> {
    if Admits(o, reports) then o.call else None
  }

  /** The tables one `process` call leaves behind. */
  function Processed(t: Tables, c: Claim, alreadyProcessing: bool, o: Outcomes): Tables
    requires ClaimOk(t, c)
  {
    ProcessedMarked(if alreadyProcessing then t else AiTables.MarkProcessing(t, c), c, o)
  }

  /** The same from the marked tables on. */
  function ProcessedMarked(t: Tables, c: Claim, o: Outcomes): Tables
    requires ClaimOk(t, c)
  {
    var call := AdmittedCall(o, t.reports);
    if call.Some? && o.grounded && o.completes then AiTables.CompleteReport(t, c, call.value)
    else FailTimes(t, c, UsageOf(call), Failures(o))
  }

  lemma {:induction false} FailTimesAdds(t: Tables, c: Claim, usage: Usage, n: nat)
    requires ClaimOk(t, c)
    ensures var t' := FailTimes(t, c, usage, n);
            && |t'.reports| == |t.reports|
            && t'.reports[c.report].usage == Add(t.reports[c.report].usage, Times(n, usage))
            && forall i :: 0 <= i < |t.reports| && i != c.report ==> t'.reports[i] == t.reports[i]
  {
    if n > 0 {
      FailTimesAdds(t, c, usage, n - 1);
      TimesSteps(n - 1, usage);
    }
  }

  /**
   * One `process` call records the usage of its model call exactly `Charges` times, on the claimed
   * report and on no other, on top of whatever that report had already accumulated.
   */
  lemma {:induction false} ProcessRecordsUsage(t: Tables, c: Claim, alreadyProcessing: bool, o: Outcomes)
    requires ClaimOk(t, c)
    ensures var t' := Processed(t, c, alreadyProcessing, o);
            && |t'.reports| == |t.reports|
            && t'.reports[c.report].usage
               == Add(t.reports[c.report].usage, Times(Charges(o, t.reports), UsageOf(o.call)))
            && (forall i :: 0 <= i < |t.reports| && i != c.report ==> t'.reports[i] == t.reports[i])
  {
    var marked := if alreadyProcessing then t else AiTables.MarkProcessing(t, c);
    MarkingKeepsSpend(t, c, o.month);
    var call := AdmittedCall(o, marked.reports);
    if call.None? {
      FailTimesAdds(marked, c, Nothing(), Failures(o));
      TimesSteps(Failures(o), UsageOf(o.call));
    } else if o.grounded && o.completes {
      TimesSteps(0, call.value);
    } else {
      FailTimesAdds(marked, c, call.value, Failures(o));
    }
  }

  predicate Completes(o: Outcomes, reports: seq<Report>) {
    Admits(o, reports) && o.call.Some? && o.grounded && o.completes
  }

  /**
   * How one `process` call ends: report and receipt agree on completed or failed, and if no closing
   * write succeeded, a report that was not completed before is still there for recovery to find.
   */
  lemma {:induction false} ProcessDecides(t: Tables, c: Claim, alreadyProcessing: bool, o: Outcomes)
    requires ClaimOk(t, c) && (alreadyProcessing ==> StatusIs(t, c, Processing))
    ensures var t' := Processed(t, c, alreadyProcessing, o);
            && (Completes(o, t.reports) ==> StatusIs(t', c, Completed))
            && (!Completes(o, t.reports) && Failures(o) > 0 ==> StatusIs(t', c, Failed))
            && (!Completes(o, t.reports) && Failures(o) == 0 && t.reports[c.report].status != Completed ==>
                  StatusIs(t', c, Processing) && Recoverable(t', c.report, {c.report}))
  {
    MarkingKeepsSpend(t, c, o.month);
  }

  /**
   * Exactly when one `process` call records its usage twice, and exactly when it records a returned
   * call not at all.
   */
  lemma ChargedTwiceOrNever(o: Outcomes, reports: seq<Report>)
    requires Admits(o, reports) && o.call.Some?
    ensures Charges(o, reports) == 2 <==> !(o.grounded && o.completes) && o.failsInLock && !o.unlocks && o.failsLate
    ensures Charges(o, reports) == 0 <==> !(o.grounded && o.completes) && !o.failsInLock && !o.failsLate
    ensures Charges(o, reports) <= 2
  {}
}
