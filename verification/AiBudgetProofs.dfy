/** Every step of the budget protocol keeps its invariant, and what that says about whole runs. */
module AiBudgetProofs {
  import opened Basics
  import opened Wrappers
  import opened AiTables
  import opened AiBudget

  ghost predicate ClaimsStay(t: Tables, t': Tables) {
    forall c :: ClaimOk(t, c) ==> ClaimOk(t', c)
  }

  ghost predicate Fresh(p: Phase) {
    p.Claimed? || p.Working?
  }

  // ---- Intake ----

  /** s' has the same tasks as s, except fresh ones started or marked as processing. */
  ghost predicate IntakeOf(s: State, s': State) {
    && s' == s.(tables := s'.tables, workers := s'.workers, clock := s'.clock)
    && Integrity(s'.tables) && ClaimsStay(s.tables, s'.tables)
    && SameMoney(s.tables.reports, s'.tables.reports)
    && s.workers.Keys <= s'.workers.Keys
    && forall w :: w in s'.workers ==>
         || (w in s.workers && s'.workers[w] == s.workers[w])
         || (Fresh(s'.workers[w]) && ClaimOk(s'.tables, s'.workers[w].claim)
             && (w in s.workers ==> Fresh(s.workers[w])))
  }

  lemma IntakeKeepsPhases(s: State, s': State)
    requires Inv(s) && IntakeOf(s, s')
    ensures PhasesOk(s') && CallsOk(s')
  {
    forall w | w in s'.workers ensures PhaseOk(s', s'.workers[w]) {
      if w in s.workers { assert PhaseOk(s, s.workers[w]); }
    }
    forall c: nat | Held(s, c) ensures Held(s', c) {
      var w :| w in s.workers && CallOf(s.workers[w]) == Some(c);
      assert s'.workers[w] == s.workers[w];
    }
    forall c | 0 <= c < |s'.calls| && !Held(s', c) ensures Settled(s', c) {
      assert Settled(s, c);
    }
  }

  lemma IntakeKeepsMoney(s: State, s': State)
    requires Inv(s) && IntakeOf(s, s') && PhasesOk(s')
    ensures UsageConserved(s') && BudgetOk(s')
  {
    forall m ensures Spend(s'.tables.reports, m) == Spend(s.tables.reports, m) {
      SpendSame(s.tables.reports, s'.tables.reports, m);
    }
    forall r | 0 <= r < |s'.tables.reports| ensures s'.tables.reports[r].usage == Charged(s'.calls, r) {
      if r >= |s.tables.reports| { ChargedNothing(s.calls, r); }
    }
    forall m ensures Covered(s', m, 0) {
      assert Covered(s, m, 0);
    }
    if s'.lock.Some? {
      assert s'.workers[s'.lock.value] == s.workers[s.lock.value] || Fresh(s'.workers[s'.lock.value]);
    }
  }

  lemma IntakeKeepsInv(s: State, s': State)
    requires Inv(s) && IntakeOf(s, s')
    ensures Inv(s')
  {
    IntakeKeepsPhases(s, s');
    IntakeKeepsMoney(s, s');
  }

  lemma {:induction false} RecoverAllTouches(t: Tables, batch: seq<Claim>)
    requires forall i :: 0 <= i < |batch| ==> ClaimOk(t, batch[i])
    ensures Touches(t, RecoverAll(t, batch)) && SameMoney(t.reports, RecoverAll(t, batch).reports)
    decreases |batch|
  {
    if batch != [] {
      var t1 := RecoverClaim(t, batch[0]);
      assert forall i :: 0 <= i < |batch| ==> ClaimOk(t1, batch[i]);
      RecoverAllTouches(t1, batch[1..]);
      assert Touches(t, t1);
    }
  }

  predicate ReceiptOf(batch: seq<Claim>, j: nat) {
    exists i :: 0 <= i < |batch| && batch[i].receipt == Some(j)
  }

  /** The rows a recovery leaves: exactly the handed-out reports are processing, and their receipts one up. */
  ghost predicate RecoveredRows(t: Tables, batch: seq<Claim>, t': Tables) {
    && |t'.reports| == |t.reports| && |t'.receipts| == |t.receipts|
    && (forall r :: 0 <= r < |t.reports| ==>
          t'.reports[r] == if HandedOut(batch, r) then t.reports[r].(status := Processing) else t.reports[r])
    && (forall j :: 0 <= j < |t.receipts| ==>
          t'.receipts[j] == if ReceiptOf(batch, j)
                            then t.receipts[j].(status := Processing, attempts := t.receipts[j].attempts + 1)
                            else t.receipts[j])
  }

  lemma OneMoreHandedOut(batch: seq<Claim>)
    requires batch != []
    ensures forall r: nat :: HandedOut(batch, r) <==> batch[0].report == r || HandedOut(batch[1..], r)
    ensures forall j: nat :: ReceiptOf(batch, j) <==> batch[0].receipt == Some(j) || ReceiptOf(batch[1..], j)
  {
    forall r: nat | HandedOut(batch, r) ensures batch[0].report == r || HandedOut(batch[1..], r) {
      var i :| 0 <= i < |batch| && batch[i].report == r;
      if i > 0 { assert batch[1..][i - 1].report == r; }
    }
    forall j: nat | ReceiptOf(batch, j) ensures batch[0].receipt == Some(j) || ReceiptOf(batch[1..], j) {
      var i :| 0 <= i < |batch| && batch[i].receipt == Some(j);
      if i > 0 { assert batch[1..][i - 1].receipt == Some(j); }
    }
    forall r: nat | HandedOut(batch[1..], r) ensures HandedOut(batch, r) {
      var i :| 0 <= i < |batch[1..]| && batch[1..][i].report == r;
      assert batch[i + 1].report == r;
    }
    forall j: nat | ReceiptOf(batch[1..], j) ensures ReceiptOf(batch, j) {
      var i :| 0 <= i < |batch[1..]| && batch[1..][i].receipt == Some(j);
      assert batch[i + 1].receipt == Some(j);
    }
  }

  lemma {:induction false} RecoverAllRows(t: Tables, batch: seq<Claim>)
    requires DistinctReports(batch) && forall i :: 0 <= i < |batch| ==> ClaimOk(t, batch[i])
    ensures RecoveredRows(t, batch, RecoverAll(t, batch))
    decreases |batch|
  {
    if batch != [] {
      var t1 := RecoverClaim(t, batch[0]);
      assert forall i :: 0 <= i < |batch| ==> ClaimOk(t1, batch[i]);
      RecoverAllRows(t1, batch[1..]);
      FirstRowThenRest(t, batch, RecoverAll(t1, batch[1..]));
    }
  }

  lemma FirstRowThenRest(t: Tables, batch: seq<Claim>, t': Tables)
    requires batch != [] && DistinctReports(batch) && forall i :: 0 <= i < |batch| ==> ClaimOk(t, batch[i])
    requires RecoveredRows(RecoverClaim(t, batch[0]), batch[1..], t')
    ensures RecoveredRows(t, batch, t')
  {
    OneMoreHandedOut(batch);
    assert ClaimOk(t, batch[0]);
    forall j: nat | ReceiptOf(batch[1..], j) ensures batch[0].receipt != Some(j) {
      var i :| 0 <= i < |batch[1..]| && batch[1..][i].receipt == Some(j);
      assert ClaimOk(t, batch[i + 1]) && batch[i + 1].report != batch[0].report;
    }
  }

  /** Nobody is at work on report r, or it has been too long: the report is pending, or processing and stale. */
  predicate Waits(t: Tables, r: nat, stale: set<nat>) {
    r < |t.reports| && (t.reports[r].status == Pending || (t.reports[r].status == Processing && r in stale))
  }

  /**
   * A recovery gives one task to each of the first ten reports it found, every one pending or processing and
   * stale. These become processing and gain one attempt; every other row, a fresh processing, a completed
   * or a failed report among them, stays as it is.
   */
  lemma RecoverTakesWhatWaits(s: State, step: Step)
    requires Inv(s) && Enabled(s, step) && step.Recover?
    ensures var batch, s' := Batch(s, step.ids), Apply(s, step);
            && BatchWaits(s.tables, step.ids, step.stale, batch) && |step.slots| == |batch|
            && (forall i :: 0 <= i < |batch| ==>
                  step.slots[i] in s'.workers && s'.workers[step.slots[i]] == Working(batch[i]))
            && RecoveredRows(s.tables, batch, s'.tables)
            && (forall r :: 0 <= r < |s.tables.reports| && !Waits(s.tables, r, step.stale) ==>
                  s'.tables.reports[r] == s.tables.reports[r])
  {
    RecoveredBatchWaits(s.tables, step.ids, step.stale);
    SlotsWork(s, Batch(s, step.ids), step.slots);
  }

  ghost predicate BatchWaits(t: Tables, ids: seq<nat>, stale: set<nat>, batch: seq<Claim>) {
    && |batch| == Min(10, |ids|)
    && forall i :: 0 <= i < |batch| ==> batch[i].report == ids[i] && Waits(t, ids[i], stale)
  }

  lemma RecoveredBatchWaits(t: Tables, ids: seq<nat>, stale: set<nat>)
    requires Integrity(t) && Distinct(ids) && forall i :: 0 <= i < |ids| ==> Recoverable(t, ids[i], stale)
    ensures var batch := Limit(Join(t, ids));
            && BatchWaits(t, ids, stale, batch) && RecoveredRows(t, batch, RecoverAll(t, batch))
            && (forall r :: HandedOut(batch, r) ==> Waits(t, r, stale))
  {
    var batch := Limit(Join(t, ids));
    JoinIsOneToOne(t, ids);
    assert forall i :: 0 <= i < |batch| ==> batch[i] == Join(t, ids)[i] && RowFor(t, ids[i], batch[i]);
    RecoveryBatchIsDistinct(t, ids);
    RecoverAllRows(t, batch);
  }

  lemma SlotsWork(s: State, batch: seq<Claim>, slots: seq<Worker>)
    requires |slots| == |batch| && Distinct(slots)
    ensures var workers := s.workers + RecoveredTasks(batch, slots);
            forall i :: 0 <= i < |slots| ==> slots[i] in workers && workers[slots[i]] == Working(batch[i])
  {}

  lemma RecoverIsIntake(s: State, step: Step)
    requires Inv(s) && Enabled(s, step) && step.Recover?
    ensures IntakeOf(s, Apply(s, step))
  {
    var batch := Batch(s, step.ids);
    RecoveredBatch(s.tables, step.ids);
    RecoveredIsIntake(s, batch, step.slots, Apply(s, step));
  }

  /** The recovered rows are valid claims, and marking them moves no money. */
  lemma RecoveredBatch(t: Tables, ids: seq<nat>)
    requires Integrity(t) && forall i :: 0 <= i < |ids| ==> ids[i] < |t.reports|
    ensures var batch := Limit(Join(t, ids));
            && (forall i :: 0 <= i < |batch| ==> ClaimOk(t, batch[i]))
            && Integrity(RecoverAll(t, batch)) && ClaimsStay(t, RecoverAll(t, batch))
            && SameMoney(t.reports, RecoverAll(t, batch).reports)
  {
    var batch := Limit(Join(t, ids));
    JoinIsOneToOne(t, ids);
    assert forall i :: 0 <= i < |batch| ==> batch[i] == Join(t, ids)[i];
    RecoverAllTouches(t, batch);
    TouchesKeepIntegrity(t, RecoverAll(t, batch));
  }

  lemma RecoveredIsIntake(s: State, batch: seq<Claim>, slots: seq<Worker>, s': State)
    requires |slots| == |batch| && Distinct(slots) && forall i :: 0 <= i < |slots| ==> slots[i] !in s.workers
    requires s' == s.(tables := s'.tables, workers := s.workers + RecoveredTasks(batch, slots))
    requires Integrity(s'.tables) && ClaimsStay(s.tables, s'.tables) && SameMoney(s.tables.reports, s'.tables.reports)
    requires forall i :: 0 <= i < |batch| ==> ClaimOk(s.tables, batch[i])
    ensures IntakeOf(s, s')
  {
    forall w | w in s'.workers && w !in s.workers
      ensures Fresh(s'.workers[w]) && ClaimOk(s'.tables, s'.workers[w].claim)
    {
      var i :| 0 <= i < |batch| && slots[i] == w;
      assert ClaimOk(s.tables, batch[i]);
    }
  }

  /** A task started on a valid claim, after a transaction that kept integrity and moved no money. */
  lemma StartTaskIsIntake(s: State, w: Worker, result: (Tables, Option<Claim>))
    requires Inv(s) && w !in s.workers
    requires Integrity(result.0) && Extends(s.tables, result.0) && SameMoney(s.tables.reports, result.0.reports)
    requires result.1.Some? ==> ClaimOk(result.0, result.1.value)
    ensures IntakeOf(s, StartTask(s, w, result))
  {}

  lemma ClaimIsIntake(s: State, step: Step)
    requires Inv(s) && Enabled(s, step) && (step.Deliver? || step.RetriggerRun? || step.Schedule?)
    ensures IntakeOf(s, Apply(s, step))
  {
    match step
    case Deliver(w, event, kind, run, repository) =>
      ClaimEventKeepsIntegrity(s.tables, event, kind, run, repository, s.clock);
      StartTaskIsIntake(s, w, ClaimEvent(s.tables, event, kind, run, repository, s.clock));
    case RetriggerRun(w, run, kind, repository) =>
      RetriggerKeepsIntegrity(s.tables, run, kind, repository, s.clock);
      StartTaskIsIntake(s, w, Retrigger(s.tables, run, kind, repository, s.clock));
    case Schedule(w, repository, kind, start) =>
      ScheduledKeepsIntegrity(s.tables, repository, kind, start, s.clock, s.clock);
      StartTaskIsIntake(s, w, ClaimScheduled(s.tables, repository, kind, start, s.clock));
  }

  lemma StartIsIntake(s: State, step: Step)
    requires Inv(s) && Enabled(s, step) && (step.Start? || step.Tick?)
    ensures IntakeOf(s, Apply(s, step))
  {
    if step.Start? {
      var c := s.workers[step.worker].claim;
      assert PhaseOk(s, s.workers[step.worker]);
      TransactionsTouch(s.tables, c, Nothing());
      TouchesKeepIntegrity(s.tables, MarkProcessing(s.tables, c));
    }
  }

  lemma StepIsIntake(s: State, step: Step)
    requires Inv(s) && Enabled(s, step) && IsIntake(step)
    ensures IntakeOf(s, Apply(s, step))
  {
    if step.Recover? { RecoverIsIntake(s, step); }
    else if step.Start? || step.Tick? { StartIsIntake(s, step); }
    else { ClaimIsIntake(s, step); }
  }

  // ---- Steps that write nothing ----

  /** One task moves on, carrying the same claim and the same call; the lock stays, goes or is taken. */
  ghost predicate QuietOf(s: State, w: Worker, p': Phase, s': State) {
    && w in s.workers
    && s' == s.(workers := s.workers[w := p'], lock := s'.lock)
    && p'.claim == s.workers[w].claim
    && CallOf(p') == CallOf(s.workers[w]) && (CallOf(p').Some? ==> TimesOf(p') == TimesOf(s.workers[w]))
    && (s'.lock == s.lock || s'.lock.None? || s'.lock == Some(w))
  }

  lemma QuietKeepsPhases(s: State, w: Worker, p': Phase, s': State)
    requires Inv(s) && QuietOf(s, w, p', s')
    ensures PhasesOk(s') && CallsOk(s')
  {
    assert PhaseOk(s, s.workers[w]);
    forall v | v in s'.workers ensures PhaseOk(s', s'.workers[v]) {
      if v != w { assert PhaseOk(s, s.workers[v]); }
    }
    forall c: nat | Held(s, c) ensures Held(s', c) {
      var v :| v in s.workers && CallOf(s.workers[v]) == Some(c);
      assert v in s'.workers && CallOf(s'.workers[v]) == Some(c);
    }
    forall c | 0 <= c < |s'.calls| && !Held(s', c) ensures Settled(s', c) {
      assert Settled(s, c);
    }
  }

  lemma QuietKeepsInv(s: State, w: Worker, p': Phase, s': State)
    requires Inv(s) && QuietOf(s, w, p', s')
    requires s'.lock == Some(w) ==> PhaseOk(s', p') && PhaseCovered(s', p')
    ensures Inv(s')
  {
    QuietKeepsPhases(s, w, p', s');
    forall m ensures Covered(s', m, 0) {
      assert Covered(s, m, 0);
    }
    if s'.lock.Some? && s'.lock != Some(w) {
      assert s'.workers[s'.lock.value] == s.workers[s.lock.value];
    }
  }

  /** The admission check: a task goes on only if its reservation fits the month's spend. */
  lemma CheckKeepsInv(s: State, step: Step)
    requires Inv(s) && Enabled(s, step) && step.Check?
    ensures Inv(Apply(s, step))
  {
    var w, s' := step.worker, Apply(s, step);
    assert PhaseOk(s, s.workers[w]);
    assert QuietOf(s, w, s'.workers[w], s');
    QuietKeepsInv(s, w, s'.workers[w], s');
  }

  /** The steps that give up the lock or take it. */
  lemma LockStepKeepsInv(s: State, step: Step)
    requires Inv(s) && Enabled(s, step) && (step.LoseConnection? || step.Acquire? || step.FailInLockFails?)
    ensures Inv(Apply(s, step))
  {
    var w, s' := step.worker, Apply(s, step);
    assert PhaseOk(s, s.workers[w]);
    assert s.workers[w := s.workers[w]] == s.workers;
    QuietKeepsInv(s, w, s'.workers[w], s');
  }

  lemma QuietStepKeepsInv(s: State, step: Step)
    requires Inv(s) && Enabled(s, step) && IsQuiet(step)
    ensures Inv(Apply(s, step))
  {
    if step.Check? {
      CheckKeepsInv(s, step);
    } else if step.LoseConnection? || step.Acquire? || step.FailInLockFails? {
      LockStepKeepsInv(s, step);
    } else {
      var w, s' := step.worker, Apply(s, step);
      assert PhaseOk(s, s.workers[w]);
      if s.lock == Some(w) { assert PhaseCovered(s, s.workers[w]); }
      QuietKeepsInv(s, w, s'.workers[w], s');
    }
  }

  // ---- A call returns ----

  lemma GenerateKeepsPhases(s: State, step: Step)
    requires Inv(s) && Enabled(s, step) && step.Generate?
    ensures PhasesOk(Apply(s, step)) && CallsOk(Apply(s, step))
  {
    var s' := Apply(s, step);
    var w := step.worker;
    assert PhaseOk(s, s.workers[w]);
    forall v | v in s'.workers ensures PhaseOk(s', s'.workers[v]) {
      if v != w { assert PhaseOk(s, s.workers[v]); }
    }
    assert Held(s', |s.calls|) by { assert w in s'.workers && CallOf(s'.workers[w]) == Some(|s.calls|); }
    forall c: nat | Held(s, c) ensures Held(s', c) {
      var v :| v in s.workers && CallOf(s.workers[v]) == Some(c);
      assert v in s'.workers && CallOf(s'.workers[v]) == Some(c);
    }
    forall c | 0 <= c < |s'.calls| && !Held(s', c) ensures Settled(s', c) {
      assert Settled(s, c);
    }
  }

  lemma GenerateKeepsInv(s: State, step: Step)
    requires Inv(s) && Enabled(s, step) && step.Generate?
    ensures Inv(Apply(s, step))
  {
    var s' := Apply(s, step);
    var w := step.worker;
    GenerateKeepsPhases(s, step);
    forall r | 0 <= r < |s'.tables.reports| ensures s'.tables.reports[r].usage == Charged(s'.calls, r) {}
    forall m ensures Covered(s', m, 0) {
      assert Covered(s, m, 0);
    }
    if s'.lock.Some? {
      assert PhaseCovered(s, s.workers[s.lock.value]);
      assert PhaseOk(s, s.workers[s.lock.value]);
    }
  }

  // ---- A task ends ----

  /** s' is s without task w; a call it carried unrecorded is written off as lost. */
  lemma CloseKeepsPhases(s: State, w: Worker, s': State)
    requires Inv(s) && w in s.workers
    requires s' == Close(s, w).(lost := s'.lost)
    requires s'.lost == if CallOf(s.workers[w]).Some? && TimesOf(s.workers[w]) == 0
                        then s.lost + {CallOf(s.workers[w]).value} else s.lost
    ensures PhasesOk(s') && CallsOk(s')
  {
    assert PhaseOk(s, s.workers[w]);
    forall v | v in s'.workers ensures PhaseOk(s', s'.workers[v]) {
      assert PhaseOk(s, s.workers[v]);
    }
    forall c: nat | Held(s, c) && Some(c) != CallOf(s.workers[w]) ensures Held(s', c) {
      var v :| v in s.workers && CallOf(s.workers[v]) == Some(c);
      assert v in s'.workers && CallOf(s'.workers[v]) == Some(c);
    }
    forall c | 0 <= c < |s'.calls| && !Held(s', c) ensures Settled(s', c) {
      if Some(c) != CallOf(s.workers[w]) { assert Settled(s, c); }
    }
  }

  lemma CloseKeepsInv(s: State, w: Worker, s': State)
    requires Inv(s) && w in s.workers
    requires s' == Close(s, w).(lost := s'.lost)
    requires s'.lost == if CallOf(s.workers[w]).Some? && TimesOf(s.workers[w]) == 0
                        then s.lost + {CallOf(s.workers[w]).value} else s.lost
    ensures Inv(s')
  {
    CloseKeepsPhases(s, w, s');
    forall m ensures Covered(s', m, 0) {
      assert Covered(s, m, 0);
    }
    if s'.lock.Some? {
      assert PhaseCovered(s, s.workers[s.lock.value]);
    }
  }

  lemma EndKeepsInv(s: State, step: Step)
    requires Inv(s) && Enabled(s, step)
    requires step.Unlock? || step.UnlockFails? || step.LateFailFails? || step.Crash?
    ensures Inv(Apply(s, step))
  {
    var w := step.worker;
    assert PhaseOk(s, s.workers[w]);
    if step.UnlockFails? && !s.workers[w].committed {
      QuietKeepsInv(s, w, Apply(s, step).workers[w], Apply(s, step));
    } else {
      CloseKeepsInv(s, w, Apply(s, step));
    }
  }

  // ---- A charge is recorded ----

  /** Recording a carried call moves its usage to its report, once more, and no other number. */
  lemma RecordConserves(s: State, claim: Claim, c: nat, complete: bool, late: bool)
    requires Inv(s) && ClaimOk(s.tables, claim) && c < |s.calls| && s.calls[c].report == claim.report
    ensures UsageConserved(Record(s, claim, Some(c), complete, late))
  {
    var s' := Record(s, claim, Some(c), complete, late);
    forall r | 0 <= r < |s'.tables.reports| ensures s'.tables.reports[r].usage == Charged(s'.calls, r) {
      ChargedUpdate(s.calls, c, r);
    }
  }

  lemma RecordSpends(s: State, claim: Claim, c: nat, complete: bool, late: bool, m: int)
    requires ClaimOk(s.tables, claim) && c < |s.calls|
    ensures var s' := Record(s, claim, Some(c), complete, late);
            var month := s.tables.reports[claim.report].month;
            && Spend(s'.tables.reports, m)
               == Spend(s.tables.reports, m) + (if month == m then s.calls[c].usage.cost else 0)
            && Slack(s'.excess, m) == Slack(s.excess, m)
                 + Slack(if late then [Excess(month, s.calls[c].usage.cost, Late)] else ExcessOf(s.calls[c], month), m)
  {
    var s' := Record(s, claim, Some(c), complete, late);
    SpendUpdate(s.tables.reports, claim.report, s'.tables.reports[claim.report], m);
    SlackAppend(s.excess, s'.excess[|s.excess|..], m);
    assert s'.excess == s.excess + s'.excess[|s.excess|..];
  }

  /** What a charge of a report requested in `month` adds to that month beyond what was checked for it. */
  function Uncovered(call: Call, month: int, late: bool): nat {
    if late || call.month != month then call.usage.cost
    else if call.usage.cost <= call.projected then 0
    else call.usage.cost - call.projected
  }

  /**
   * The excess of a month grows by the whole cost of a charge that was recorded late or checked against
   * another month, and else by what the cost exceeds its projection by; other months' excess stays.
   */
  lemma {:induction false} ExcessGrows(s: State, claim: Claim, c: nat, complete: bool, late: bool, m: int)
    requires ClaimOk(s.tables, claim) && c < |s.calls|
    ensures var s' := Record(s, claim, Some(c), complete, late);
            var month := s.tables.reports[claim.report].month;
            && Slack(s'.excess, m)
               == Slack(s.excess, m) + (if m == month then Uncovered(s.calls[c], month, late) else 0)
            && Slack([], m) == 0 && s.excess <= s'.excess
            && forall i :: |s.excess| <= i < |s'.excess| ==>
                 && (s'.excess[i].reason == Late <==> late)
                 && (s'.excess[i].reason == Straddled <==> !late && s.calls[c].month != month)
                 && (s'.excess[i].reason == Overrun <==> !late && s.calls[c].month == month)
  {
    RecordSpends(s, claim, c, complete, late, m);
    OneExcess(s.calls[c], s.tables.reports[claim.report].month, late, m);
  }

  lemma {:induction false} OneExcess(call: Call, month: int, late: bool, m: int)
    ensures Slack(if late then [Excess(month, call.usage.cost, Late)] else ExcessOf(call, month), m)
            == if m == month then Uncovered(call, month, late) else 0
  {}

  /** Recorded under the lock, an admitted charge stays within cap plus its own excess, in every month. */
  lemma RecordStaysCovered(s: State, claim: Claim, c: nat, complete: bool, m: int)
    requires ClaimOk(s.tables, claim) && c < |s.calls|
    requires Covered(s, s.calls[c].month, s.calls[c].projected) && Covered(s, m, 0)
    ensures Covered(Record(s, claim, Some(c), complete, false), m, 0)
  {
    RecordSpends(s, claim, c, complete, false, m);
  }

  /** Recorded late, a charge moves spend and slack alike, so nobody's reservation is disturbed. */
  lemma LateRecordStaysCovered(s: State, claim: Claim, c: nat, m: int, reserve: nat)
    requires ClaimOk(s.tables, claim) && c < |s.calls| && Covered(s, m, reserve)
    ensures Covered(Record(s, claim, Some(c), false, true), m, reserve)
  {
    RecordSpends(s, claim, c, false, true, m);
  }

  lemma RecordTouches(s: State, claim: Claim, carried: Option<nat>, complete: bool, late: bool)
    requires Inv(s) && ClaimOk(s.tables, claim) && (carried.Some? ==> carried.value < |s.calls|)
    ensures var s' := Record(s, claim, carried, complete, late);
            && Integrity(s'.tables) && ClaimsStay(s.tables, s'.tables)
            && |s'.tables.reports| == |s.tables.reports|
            && (carried.None? ==> SameMoney(s.tables.reports, s'.tables.reports))
  {
    var usage := if carried.Some? then s.calls[carried.value].usage else Nothing();
    TransactionsTouch(s.tables, claim, usage);
    TouchesKeepIntegrity(s.tables, Record(s, claim, carried, complete, late).tables);
  }

  /** The state after the lock holder w records call c. */
  ghost function AfterRecord(s: State, w: Worker, complete: bool): State
    requires w in s.workers && PhaseOk(s, s.workers[w]) && CallOf(s.workers[w]).Some?
  {
    var p := s.workers[w];
    Move(Record(s, p.claim, CallOf(p), complete, false), w, Recorded(p.claim, CallOf(p), complete))
  }

  lemma AfterRecordKeepsPhases(s: State, w: Worker, complete: bool)
    requires Inv(s) && s.lock == Some(w) && CallOf(s.workers[w]).Some? && TimesOf(s.workers[w]) == 0
    requires PhaseOk(s, s.workers[w])
    ensures PhasesOk(AfterRecord(s, w, complete))
  {
    var p := s.workers[w];
    var c := CallOf(p).value;
    var s' := AfterRecord(s, w, complete);
    RecordTouches(s, p.claim, Some(c), complete, false);
    forall v | v in s'.workers ensures PhaseOk(s', s'.workers[v]) {}
  }

  lemma AfterRecordKeepsCalls(s: State, w: Worker, complete: bool)
    requires Inv(s) && s.lock == Some(w) && CallOf(s.workers[w]).Some? && PhaseOk(s, s.workers[w])
    ensures CallsOk(AfterRecord(s, w, complete))
  {
    var p := s.workers[w];
    var c := CallOf(p).value;
    var s' := AfterRecord(s, w, complete);
    RecordTouches(s, p.claim, Some(c), complete, false);
    assert Held(s', c) by { assert w in s'.workers && CallOf(s'.workers[w]) == Some(c); }
    forall d: nat | Held(s, d) ensures Held(s', d) {
      var v :| v in s.workers && CallOf(s.workers[v]) == Some(d);
      assert v in s'.workers && CallOf(s'.workers[v]) == Some(d);
    }
    forall d | 0 <= d < |s'.calls| && !Held(s', d) ensures Settled(s', d) {
      assert Settled(s, d);
    }
  }

  lemma AfterRecordKeepsInv(s: State, w: Worker, complete: bool)
    requires Inv(s) && s.lock == Some(w) && PhaseOk(s, s.workers[w])
    requires (s.workers[w].Returned? || s.workers[w].Failing?) && CallOf(s.workers[w]).Some?
    ensures Inv(AfterRecord(s, w, complete))
  {
    var p := s.workers[w];
    var c := CallOf(p).value;
    var s' := AfterRecord(s, w, complete);
    AfterRecordKeepsPhases(s, w, complete);
    AfterRecordKeepsCalls(s, w, complete);
    RecordConserves(s, p.claim, c, complete, false);
    RecordTouches(s, p.claim, Some(c), complete, false);
    assert PhaseCovered(s, p);
    forall m ensures Covered(s', m, 0) {
      assert Covered(s, m, 0);
      RecordStaysCovered(s, p.claim, c, complete, m);
    }
  }

  /** Failing a report with no usage to record: a status change and nothing else. */
  lemma EmptyRecordKeepsInv(s: State, claim: Claim, late: bool)
    requires Inv(s) && ClaimOk(s.tables, claim)
    ensures Inv(Record(s, claim, None, false, late))
  {
    RecordTouches(s, claim, None, false, late);
    IntakeKeepsInv(s, Record(s, claim, None, false, late));
  }

  lemma RecordStepKeepsInv(s: State, step: Step)
    requires Inv(s) && Enabled(s, step) && (step.Complete? || step.FailInLock?)
    ensures Inv(Apply(s, step))
  {
    var w := step.worker;
    var p := s.workers[w];
    assert PhaseOk(s, p);
    if CallOf(p).Some? {
      AfterRecordKeepsInv(s, w, step.Complete?);
      assert Apply(s, step) == AfterRecord(s, w, step.Complete?);
    } else {
      var mid := Record(s, p.claim, None, false, false);
      EmptyRecordKeepsInv(s, p.claim, false);
      QuietKeepsInv(mid, w, Recorded(p.claim, None, false), Apply(s, step));
    }
  }

  lemma LateFailKeepsPhases(s: State, step: Step)
    requires Inv(s) && Enabled(s, step) && step.LateFail? && CallOf(s.workers[step.worker]).Some?
    ensures PhasesOk(Apply(s, step)) && CallsOk(Apply(s, step))
  {
    var w, s' := step.worker, Apply(s, step);
    var p := s.workers[w];
    assert PhaseOk(s, p);
    var c := CallOf(p).value;
    RecordTouches(s, p.claim, Some(c), false, true);
    forall v | v in s'.workers ensures PhaseOk(s', s'.workers[v]) {}
    forall d: nat | Held(s, d) && d != c ensures Held(s', d) {
      var v :| v in s.workers && CallOf(s.workers[v]) == Some(d);
      assert v in s'.workers && CallOf(s'.workers[v]) == Some(d);
    }
    forall d | 0 <= d < |s'.calls| && !Held(s', d) ensures Settled(s', d) {
      if d != c { assert Settled(s, d); }
    }
  }

  lemma LateFailKeepsInv(s: State, step: Step)
    requires Inv(s) && Enabled(s, step) && step.LateFail?
    ensures Inv(Apply(s, step))
  {
    var w, s' := step.worker, Apply(s, step);
    var p := s.workers[w];
    assert PhaseOk(s, p);
    if CallOf(p).None? {
      EmptyRecordKeepsInv(s, p.claim, true);
      CloseKeepsInv(Record(s, p.claim, None, false, true), w, s');
    } else {
      LateFailKeepsPhases(s, step);
      LateFailKeepsMoney(s, step);
    }
  }

  lemma LateRecordKeepsReservation(s: State, claim: Claim, c: nat, q: Phase, s': State)
    requires ClaimOk(s.tables, claim) && c < |s.calls| && s' == Record(s, claim, Some(c), false, true)
    requires CallOf(q) != Some(c) && PhaseOk(s, q) && PhaseOk(s', q) && PhaseCovered(s, q)
    ensures PhaseCovered(s', q)
  {
    if q.Admitted? { LateRecordStaysCovered(s, claim, c, q.month, q.projected); }
    if (q.Returned? || q.Failing?) && CallOf(q).Some? {
      var call := s.calls[CallOf(q).value];
      LateRecordStaysCovered(s, claim, c, call.month, call.projected);
    }
  }

  lemma LateFailKeepsMoney(s: State, step: Step)
    requires Inv(s) && Enabled(s, step) && step.LateFail? && CallOf(s.workers[step.worker]).Some?
    requires PhasesOk(Apply(s, step))
    ensures Integrity(Apply(s, step).tables) && UsageConserved(Apply(s, step)) && BudgetOk(Apply(s, step))
  {
    var w, s' := step.worker, Apply(s, step);
    var p := s.workers[w];
    assert PhaseOk(s, p);
    var c := CallOf(p).value;
    RecordTouches(s, p.claim, Some(c), false, true);
    RecordConserves(s, p.claim, c, false, true);
    forall m ensures Covered(s', m, 0) {
      assert Covered(s, m, 0);
      LateRecordStaysCovered(s, p.claim, c, m, 0);
    }
    if s'.lock.Some? {
      var q := s.workers[s.lock.value];
      LateRecordKeepsReservation(s, p.claim, c, q, Record(s, p.claim, Some(c), false, true));
    }
  }

  /** Every step of every worker keeps the invariant. */
  lemma StepKeepsInv(s: State, step: Step)
    requires Inv(s) && Enabled(s, step)
    ensures Inv(Apply(s, step))
  {
    if IsIntake(step) {
      StepIsIntake(s, step);
      IntakeKeepsInv(s, Apply(s, step));
    } else if IsQuiet(step) {
      QuietStepKeepsInv(s, step);
    } else if step.Generate? {
      GenerateKeepsInv(s, step);
    } else if step.Complete? || step.FailInLock? {
      RecordStepKeepsInv(s, step);
    } else if step.LateFail? {
      LateFailKeepsInv(s, step);
    } else {
      EndKeepsInv(s, step);
    }
  }
}
