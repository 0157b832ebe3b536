/** What the budget protocol guarantees over whole runs. */
module AiBudgetRuns {
  import opened Basics
  import opened Wrappers
  import opened AiTables
  import opened AiBudget
  import opened AiBudgetProofs
  import Cost

  ghost predicate Next(s: State, step: Step, s': State) {
    PhasesOk(s) && Enabled(s, step) && s' == Apply(s, step)
  }

  ghost predicate Run(states: seq<State>, steps: seq<Step>, cap: nat, clock: Clock) {
    && |states| == |steps| + 1
    && states[0] == Init(cap, clock)
    && forall i :: 0 <= i < |steps| ==> Next(states[i], steps[i], states[i + 1])
  }

  lemma {:induction false} RunKeepsInv(states: seq<State>, steps: seq<Step>, cap: nat, clock: Clock, n: nat)
    requires Run(states, steps, cap, clock) && n < |states|
    ensures Inv(states[n]) && states[n].cap == cap
  {
    if n > 0 {
      var k := n - 1;
      RunKeepsInv(states, steps, cap, clock, k);
      assert Next(states[k], steps[k], states[k + 1]);
      StepKeepsInv(states[k], steps[k]);
    }
  }

  /**
   * In every interleaving of every number of workers, what a month's reports have cost never exceeds
   * the cap by more than was recorded late, straddled a month boundary, or overran its projection.
   */
  lemma SpendIsCapped(states: seq<State>, steps: seq<Step>, cap: nat, clock: Clock, n: nat, month: int)
    requires Run(states, steps, cap, clock) && n < |states|
    ensures Spend(states[n].tables.reports, month) <= cap + Slack(states[n].excess, month)
  {
    RunKeepsInv(states, steps, cap, clock, n);
    assert Covered(states[n], month, 0);
  }

  lemma RecoverStepIsDistinct(s: State, step: Step)
    requires Inv(s) && Enabled(s, step) && step.Recover?
    ensures DistinctReports(Batch(s, step.ids))
  {
    RecoveryBatchIsDistinct(s.tables, step.ids);
  }

  /** Claim integrity in every reachable state, and no report handed out twice by one recovery. */
  lemma ClaimsStayIntact(states: seq<State>, steps: seq<Step>, cap: nat, clock: Clock, n: nat)
    requires Run(states, steps, cap, clock) && n < |states|
    ensures Integrity(states[n].tables)
    ensures n < |steps| && steps[n].Recover? ==>
              DistinctReports(Batch(states[n], steps[n].ids))
  {
    RunKeepsInv(states, steps, cap, clock, n);
    if n < |steps| && steps[n].Recover? {
      assert Next(states[n], steps[n], states[n + 1]);
      RecoverStepIsDistinct(states[n], steps[n]);
    }
  }

  // ---- Runs without faults ----

  /** Every database write and every lock release succeeds, and nobody crashes. */
  predicate Faultless(step: Step) {
    !(step.FailInLockFails? || step.UnlockFails? || step.LateFailFails? || step.LoseConnection? || step.Crash?)
  }

  /** No charge has been lost, doubled, or pushed outside the lock. */
  ghost predicate Clean(s: State) {
    && s.lost == {} && s.doubled == {}
    && (forall w :: w in s.workers && s.workers[w].Escaped? ==> s.workers[w].carried.None?)
    && (forall i :: 0 <= i < |s.excess| ==> s.excess[i].reason != Late)
  }

  lemma FaultlessTaskStepIsClean(s: State, step: Step)
    requires Inv(s) && Enabled(s, step) && Clean(s) && Faultless(step) && !IsIntake(step)
    ensures Clean(Apply(s, step))
  {
    var s' := Apply(s, step);
    forall w | w in s'.workers && s'.workers[w].Escaped? ensures s'.workers[w].carried.None? {}
  }

  lemma FaultlessStepIsClean(s: State, step: Step)
    requires Inv(s) && Enabled(s, step) && Clean(s) && Faultless(step)
    ensures Clean(Apply(s, step))
  {
    if IsIntake(step) {
      StepIsIntake(s, step);
    } else {
      FaultlessTaskStepIsClean(s, step);
    }
  }

  lemma {:induction false} FaultlessRunIsClean(states: seq<State>, steps: seq<Step>, cap: nat, clock: Clock, n: nat)
    requires Run(states, steps, cap, clock) && n < |states|
    requires forall i :: 0 <= i < n ==> Faultless(steps[i])
    ensures Clean(states[n])
  {
    if n > 0 {
      var k := n - 1;
      FaultlessRunIsClean(states, steps, cap, clock, k);
      RunKeepsInv(states, steps, cap, clock, k);
      assert Next(states[k], steps[k], states[k + 1]);
      FaultlessStepIsClean(states[k], steps[k]);
    }
  }

  /** The usage of every call that returned a report for r, each counted once. */
  function Consumed(calls: seq<Call>, r: nat): Usage {
    if calls == [] then Nothing()
    else
      var last := calls[|calls| - 1];
      Add(Consumed(calls[..|calls| - 1], r), if last.report == r then last.usage else Nothing())
  }

  lemma {:induction false} RecordedOnce(calls: seq<Call>, r: nat)
    requires forall c :: 0 <= c < |calls| ==> calls[c].times == 1
    ensures Charged(calls, r) == Consumed(calls, r)
    decreases |calls|
  {
    if calls != [] {
      var last := calls[|calls| - 1];
      RecordedOnce(calls[..|calls| - 1], r);
      TimesSteps(0, last.usage);
    }
  }

  /**
   * Usage is conserved. In a run where writes and unlocks succeed, once no task carries a charge,
   * every report stores exactly the tokens, cost and latency of all the calls made for it, across
   * failures, recoveries and retriggers.
   */
  lemma UsageIsConserved(states: seq<State>, steps: seq<Step>, cap: nat, clock: Clock, n: nat, r: nat)
    requires Run(states, steps, cap, clock) && n < |states| && r < |states[n].tables.reports|
    requires forall i :: 0 <= i < n ==> Faultless(steps[i])
    requires forall w :: w in states[n].workers ==> CallOf(states[n].workers[w]).None?
    ensures states[n].tables.reports[r].usage == Consumed(states[n].calls, r)
  {
    var s := states[n];
    RunKeepsInv(states, steps, cap, clock, n);
    FaultlessRunIsClean(states, steps, cap, clock, n);
    forall c | 0 <= c < |s.calls| ensures s.calls[c].times == 1 {
      assert !Held(s, c);
      assert Settled(s, c);
    }
    RecordedOnce(s.calls, r);
  }

  /** With faults, each call that no task carries was recorded 0, 1 or 2 times, and exactly which is known. */
  lemma FaultsAreAccounted(states: seq<State>, steps: seq<Step>, cap: nat, clock: Clock, n: nat, c: nat)
    requires Run(states, steps, cap, clock) && n < |states| && c < |states[n].calls|
    requires forall w :: w in states[n].workers ==> CallOf(states[n].workers[w]) != Some(c)
    ensures var s := states[n];
            && (s.calls[c].times == 0 <==> c in s.lost)
            && (s.calls[c].times == 2 <==> c in s.doubled)
            && s.calls[c].times <= 2
            && forall r :: 0 <= r < |s.tables.reports| ==> s.tables.reports[r].usage == Charged(s.calls, r)
  {
    RunKeepsInv(states, steps, cap, clock, n);
    assert !Held(states[n], c);
    assert Settled(states[n], c);
  }

  /** The call was admitted in its report's own month. */
  predicate Timely(s: State, call: Call) {
    call.report < |s.tables.reports| && call.month == s.tables.reports[call.report].month
  }

  /** A call that was admitted in its report's own month and cost no more than projected. */
  predicate WithinBounds(s: State, c: nat)
    requires c < |s.calls|
  {
    s.calls[c].usage.cost <= s.calls[c].projected && Timely(s, s.calls[c])
  }

  /** Every call made so far is within bounds. */
  ghost predicate Bounded(s: State) {
    forall c :: 0 <= c < |s.calls| ==> WithinBounds(s, c)
  }

  /** What a call was admitted and charged for never changes, nor does the month of a report. */
  ghost predicate Persists(s: State, s': State) {
    && |s.calls| <= |s'.calls| && |s.tables.reports| <= |s'.tables.reports|
    && (forall c :: 0 <= c < |s.calls| ==> s'.calls[c] == s.calls[c].(times := s'.calls[c].times))
    && (forall r :: 0 <= r < |s.tables.reports| ==> s'.tables.reports[r].month == s.tables.reports[r].month)
  }

  lemma RecordPersists(s: State, claim: Claim, carried: Option<nat>, complete: bool, late: bool)
    requires ClaimOk(s.tables, claim) && (carried.Some? ==> carried.value < |s.calls|)
    ensures Persists(s, Record(s, claim, carried, complete, late))
  {}

  lemma StepPersists(s: State, step: Step)
    requires Inv(s) && Enabled(s, step)
    ensures Persists(s, Apply(s, step))
  {
    if IsIntake(step) {
      StepIsIntake(s, step);
    } else if step.Complete? || step.FailInLock? || step.LateFail? {
      RecordStepPersists(s, step);
    } else {
      TaskStepPersists(s, step);
    }
  }

  lemma RecordStepPersists(s: State, step: Step)
    requires PhasesOk(s) && Enabled(s, step) && (step.Complete? || step.FailInLock? || step.LateFail?)
    ensures Persists(s, Apply(s, step))
  {
    var p := s.workers[step.worker];
    assert PhaseOk(s, p);
    RecordPersists(s, p.claim, CallOf(p), step.Complete?, step.LateFail?);
  }

  lemma TaskStepPersists(s: State, step: Step)
    requires PhasesOk(s) && Enabled(s, step) && !IsIntake(step)
    requires !step.Complete? && !step.FailInLock? && !step.LateFail?
    ensures Persists(s, Apply(s, step))
  {}

  /** So if every call is within bounds now, every call was before. */
  lemma BoundedBefore(s: State, step: Step)
    requires Inv(s) && Enabled(s, step) && Bounded(Apply(s, step))
    ensures Bounded(s)
  {
    StepPersists(s, step);
    forall c | 0 <= c < |s.calls| ensures WithinBounds(s, c) {
      assert WithinBounds(Apply(s, step), c);
    }
  }

  predicate OnlyLate(excess: seq<Excess>) {
    forall i :: 0 <= i < |excess| ==> excess[i].reason == Late
  }

  lemma BoundedRecordAddsNothing(s: State, step: Step)
    requires Inv(s) && Enabled(s, step) && (step.Complete? || step.FailInLock?) && Bounded(s)
    ensures Apply(s, step).excess == s.excess
  {
    var p := s.workers[step.worker];
    assert PhaseOk(s, p);
    if CallOf(p).Some? {
      assert WithinBounds(s, CallOf(p).value);
    }
  }

  /** The step records a charge outside the lock. */
  predicate ChargesLate(s: State, step: Step) {
    step.LateFail? && step.worker in s.workers && CallOf(s.workers[step.worker]).Some?
  }

  /** The only excess a call within bounds can add is a late recording. */
  lemma BoundedStepAddsOnlyLate(s: State, step: Step)
    requires Inv(s) && Enabled(s, step) && OnlyLate(s.excess) && Bounded(s)
    ensures OnlyLate(Apply(s, step).excess)
    ensures !ChargesLate(s, step) ==> Apply(s, step).excess == s.excess
  {
    if IsIntake(step) {
      StepIsIntake(s, step);
    } else if step.Complete? || step.FailInLock? {
      BoundedRecordAddsNothing(s, step);
    }
  }

  /**
   * If every report was admitted in the month it was requested in and no call cost more than was
   * projected, a month overspends by no more than what was recorded outside the lock.
   */
  lemma {:induction false} OverspendIsLate(
    states: seq<State>, steps: seq<Step>, cap: nat, clock: Clock, n: nat, month: int)
    requires Run(states, steps, cap, clock) && n < |states| && Bounded(states[n])
    ensures Spend(states[n].tables.reports, month) <= cap + Slack(states[n].excess, month)
    ensures OnlyLate(states[n].excess)
    ensures (forall i :: 0 <= i < n ==> !ChargesLate(states[i], steps[i])) ==> states[n].excess == []
  {
    SpendIsCapped(states, steps, cap, clock, n, month);
    if n > 0 {
      var k := n - 1;
      RunKeepsInv(states, steps, cap, clock, k);
      assert Next(states[k], steps[k], states[k + 1]);
      BoundedBefore(states[k], steps[k]);
      OverspendIsLate(states, steps, cap, clock, k, month);
      BoundedStepAddsOnlyLate(states[k], steps[k]);
    }
  }

  /**
   * The cap is hard while every charge is recorded under the lock, whatever crashes, lost connections,
   * failed writes and failed unlocks there are besides.
   */
  lemma CapIsHard(states: seq<State>, steps: seq<Step>, cap: nat, clock: Clock, n: nat, month: int)
    requires Run(states, steps, cap, clock) && n < |states| && Bounded(states[n])
    requires forall i :: 0 <= i < n ==> !ChargesLate(states[i], steps[i])
    ensures Spend(states[n].tables.reports, month) <= cap
  {
    OverspendIsLate(states, steps, cap, clock, n, month);
  }

  // ---- Where the bounds come from ----

  /** What the provider counted and billed for one call. */
  datatype Billing = Billing(
    model: string, counted: nat, maxTokens: nat, input: nat, cacheWrite: nat, cacheRead: nat, output: nat)

  /** The call was projected from the counted tokens and the output ceiling, and charged what was billed. */
  predicate Billed(call: Call, b: Billing) {
    && Cost.RatesOf(b.model).Some?
    && call.usage.inputTokens == b.input + b.cacheWrite + b.cacheRead && call.usage.outputTokens == b.output
    && call.projected == Cost.ProjectedCost(b.model, b.counted, b.maxTokens).value
    && call.usage.cost == Cost.CalculateCost(b.model, b.input, b.output, b.cacheWrite, b.cacheRead).value
  }

  /** The bill keeps to the counted tokens and the output ceiling. */
  predicate KeepsToCount(b: Billing) {
    b.input + b.cacheWrite + b.cacheRead <= b.counted && b.output <= b.maxTokens
  }

  predicate Priced(call: Call, b: Billing) {
    Billed(call, b) && KeepsToCount(b)
  }

  lemma PricedCallsDoNotOverrun(call: Call, b: Billing)
    requires Priced(call, b)
    ensures call.usage.cost <= call.projected
  {
    Cost.ProjectionDominatesCost(b.model, b.input, b.output, b.cacheWrite, b.cacheRead, b.counted, b.maxTokens);
  }

  /**
   * The cap from the tokens up: if every call kept to its counted and maximum tokens, was admitted in
   * its report's month and was not charged outside the lock, no month ever exceeds the cap.
   */
  lemma PricedCapIsHard(
    states: seq<State>, steps: seq<Step>, cap: nat, clock: Clock, n: nat, month: int, bills: seq<Billing>)
    requires Run(states, steps, cap, clock) && n < |states| && |bills| == |states[n].calls|
    requires forall c :: 0 <= c < |bills| ==>
               Priced(states[n].calls[c], bills[c]) && Timely(states[n], states[n].calls[c])
    requires forall i :: 0 <= i < n ==> !ChargesLate(states[i], steps[i])
    ensures Spend(states[n].tables.reports, month) <= cap
  {
    RunKeepsInv(states, steps, cap, clock, n);
    forall c | 0 <= c < |bills| ensures WithinBounds(states[n], c) {
      PricedCallsDoNotOverrun(states[n].calls[c], bills[c]);
    }
    CapIsHard(states, steps, cap, clock, n, month);
  }

  // ---- Why each bound is needed ----

  /**
   * A charge admitted in another month than its report's is checked against the wrong month: it raises
   * its own month in full and leaves the month it was checked against as it was.
   */
  lemma StraddledChargeIsUnchecked(s: State, w: Worker, usage: Usage, s1: State, month: int)
    requires Inv(s) && s.lock == Some(w) && s.workers[w].Admitted? && s1 == Apply(s, Generate(w, usage))
    requires s.workers[w].claim.report < |s.tables.reports|
    requires month == s.tables.reports[s.workers[w].claim.report].month && s.workers[w].month != month
    ensures PhasesOk(s1) && Enabled(s1, Complete(w))
    ensures Spend(Apply(s1, Complete(w)).tables.reports, month) == Spend(s.tables.reports, month) + usage.cost
    ensures Spend(Apply(s1, Complete(w)).tables.reports, s.workers[w].month)
            == Spend(s.tables.reports, s.workers[w].month)
  {
    StepKeepsInv(s, Generate(w, usage));
    CompletionSpends(s1, w, month);
    CompletionSpends(s1, w, s.workers[w].month);
  }

  /** Completing a report charges the month it was requested in, and no other. */
  lemma CompletionSpends(s: State, w: Worker, m: int)
    requires PhasesOk(s) && s.lock == Some(w) && w in s.workers && s.workers[w].Returned?
    ensures var p := s.workers[w];
            && PhaseOk(s, p)
            && Spend(Apply(s, Complete(w)).tables.reports, m) == Spend(s.tables.reports, m)
                 + if s.tables.reports[p.claim.report].month == m then s.calls[p.call].usage.cost else 0
  {
    var p := s.workers[w];
    assert PhaseOk(s, p);
    RecordSpends(s, p.claim, p.call, true, false, m);
  }

  /** Why the unlock matters: if it fails after an in-lock failure was recorded, the charge is recorded again. */
  lemma FailedUnlockChargesTwice(s: State, w: Worker, c: nat)
    requires Inv(s) && w in s.workers && s.workers[w].Recorded? && !s.workers[w].committed
    requires s.workers[w].settled == Some(c)
    ensures Enabled(s, UnlockFails(w)) && c < |s.calls| && s.calls[c].times == 1
    ensures var s1 := Apply(s, UnlockFails(w));
            PhasesOk(s1) && Enabled(s1, LateFail(w)) && Apply(s1, LateFail(w)).calls[c].times == 2
  {
    assert PhaseOk(s, s.workers[w]);
    StepKeepsInv(s, UnlockFails(w));
  }
}
