/** One worker running alone: its steps in the budget protocol amount to one `process` call. */
module AiServiceRuns {
  import opened Wrappers
  import opened AiTables
  import opened AiBudget
  import opened AiBudgetProofs
  import opened AiBudgetRuns
  import opened AiBudgetLimits
  import S = AiService

  /** The step is taken; its outcome is the protocol's. */
  lemma Takes(s0: State, s: State, step: Step) returns (s': State)
    requires Reaches(s0, s, true) && Enabled(s, step)
    ensures Next(s, step, s') && Reaches(s0, s', true)
  {
    ReachesPhases(s0, s, true);
    s' := Apply(s, step);
    ReachesNext(s0, s, step, s', true);
  }

  function Carried(s: State, p: Phase): Usage {
    if CallOf(p).Some? && CallOf(p).value < |s.calls| then s.calls[CallOf(p).value].usage else Nothing()
  }

  /** The calls after the carried one has been recorded n more times. */
  function RecordedCalls(calls: seq<Call>, carried: Option<nat>, n: nat): seq<Call> {
    if carried.Some? && carried.value < |calls|
    then calls[carried.value := calls[carried.value].(times := calls[carried.value].times + n)] else calls
  }

  /** s' is s with worker w gone, n failures recorded for its claim. */
  ghost predicate Fails(s: State, s': State, w: Worker, n: nat) {
    && w in s.workers && ClaimOk(s.tables, s.workers[w].claim)
    && s'.workers == s.workers - {w} && s'.lock.None?
    && s'.tables == S.FailTimes(s.tables, s.workers[w].claim, Carried(s, s.workers[w]), n)
    && s'.calls == RecordedCalls(s.calls, CallOf(s.workers[w]), n)
  }

  lemma FailsLateOnce(s0: State, s: State, w: Worker) returns (s': State)
    requires Reaches(s0, s, true) && w in s.workers && s.workers[w].Escaped? && s.lock.None?
    ensures Reaches(s0, s', true) && ClaimOk(s.tables, s.workers[w].claim)
    ensures s'.workers == s.workers - {w} && s'.lock.None?
    ensures s'.tables == FailReport(s.tables, s.workers[w].claim, Carried(s, s.workers[w]))
    ensures s'.calls == RecordedCalls(s.calls, CallOf(s.workers[w]), 1)
  {
    CarriedIsKnown(s0, s, w);
    s' := Takes(s0, s, LateFail(w));
  }

  /** The fallback outside the lock. */
  lemma {:induction false} EndLate(s0: State, s: State, w: Worker, fails: bool) returns (s': State)
    requires Reaches(s0, s, true) && w in s.workers && s.workers[w].Escaped? && s.lock.None?
    ensures Reaches(s0, s', true) && Fails(s, s', w, if fails then 1 else 0)
  {
    CarriedIsKnown(s0, s, w);
    if fails {
      s' := FailsLateOnce(s0, s, w);
      S.FailTimesUnrolled(s.tables, s.workers[w].claim, Carried(s, s.workers[w]));
    } else {
      s' := Takes(s0, s, LateFailFails(w));
    }
  }

  /** How often the failure of a claim is recorded once the task has failed under the lock. */
  function FailuresInLock(o: S.Outcomes): nat {
    (if o.failsInLock then 1 else 0) + (if (!o.failsInLock || !o.unlocks) && o.failsLate then 1 else 0)
  }

  /** The failure is recorded under the lock; the task is not gone yet. */
  lemma {:induction false} RecordsFailure(s0: State, s: State, w: Worker) returns (s': State)
    requires Reaches(s0, s, true) && w in s.workers && s.workers[w].Failing? && s.lock == Some(w)
    ensures Reaches(s0, s', true) && ClaimOk(s.tables, s.workers[w].claim)
    ensures var p := s.workers[w];
            && s'.workers == s.workers[w := Phase.Recorded(p.claim, p.pending, false)] && s'.lock == s.lock
            && s'.tables == FailReport(s.tables, p.claim, Carried(s, p))
            && s'.calls == RecordedCalls(s.calls, p.pending, 1)
  {
    CarriedIsKnown(s0, s, w);
    s' := Takes(s0, s, FailInLock(w));
  }

  lemma UnlockFailsOpen(s0: State, s: State, w: Worker) returns (s': State)
    requires Reaches(s0, s, true) && w in s.workers && s.workers[w].Recorded?
    requires !s.workers[w].committed && s.lock == Some(w)
    ensures Reaches(s0, s', true)
    ensures var p := s.workers[w];
            s' == s.(workers := s.workers[w := Escaped(p.claim, p.settled, true)], lock := None)
  {
    s' := Takes(s0, s, UnlockFails(w));
  }

  /** A failure after a failure: what one plus what n recordings come to. */
  lemma {:induction false} FailsAgain(s: State, s1: State, s2: State, s': State, w: Worker, n: nat)
    requires w in s.workers && ClaimOk(s.tables, s.workers[w].claim)
    requires CallOf(s.workers[w]).Some? ==> CallOf(s.workers[w]).value < |s.calls|
    requires s1.tables == FailReport(s.tables, s.workers[w].claim, Carried(s, s.workers[w]))
    requires s1.calls == RecordedCalls(s.calls, CallOf(s.workers[w]), 1)
    requires s2.tables == s1.tables && s2.calls == s1.calls && w in s2.workers && s2.workers - {w} == s.workers - {w}
    requires s2.workers[w].claim == s.workers[w].claim && CallOf(s2.workers[w]) == CallOf(s.workers[w])
    requires Fails(s2, s', w, n) && n <= 1
    ensures Fails(s, s', w, n + 1)
  {
    S.FailTimesUnrolled(s.tables, s.workers[w].claim, Carried(s, s.workers[w]));
    S.FailTimesUnrolled(s2.tables, s.workers[w].claim, Carried(s, s.workers[w]));
    assert Carried(s2, s2.workers[w]) == Carried(s, s.workers[w]);
  }

  /** The failure was recorded under the lock, and the lock is not released properly. */
  lemma {:induction false} EndUnlocked(s0: State, s: State, s1: State, w: Worker, failsLate: bool) returns (s': State)
    requires Reaches(s0, s1, true) && w in s.workers && s.workers[w].Failing? && s1.lock == Some(w)
    requires ClaimOk(s.tables, s.workers[w].claim)
    requires s.workers[w].pending.Some? ==> s.workers[w].pending.value < |s.calls|
    requires s1.workers == s.workers[w := Phase.Recorded(s.workers[w].claim, s.workers[w].pending, false)]
    requires s1.tables == FailReport(s.tables, s.workers[w].claim, Carried(s, s.workers[w]))
    requires s1.calls == RecordedCalls(s.calls, s.workers[w].pending, 1)
    ensures Reaches(s0, s', true) && Fails(s, s', w, if failsLate then 2 else 1)
  {
    var s2 := UnlockFailsOpen(s0, s1, w);
    s' := EndLate(s0, s2, w, failsLate);
    FailsAgain(s, s1, s2, s', w, if failsLate then 1 else 0);
  }

  lemma {:induction false} EndReleased(s0: State, s: State, s1: State, w: Worker) returns (s': State)
    requires Reaches(s0, s1, true) && w in s.workers && s.workers[w].Failing? && s1.lock == Some(w)
    requires ClaimOk(s.tables, s.workers[w].claim)
    requires s1.workers == s.workers[w := Phase.Recorded(s.workers[w].claim, s.workers[w].pending, false)]
    requires s1.tables == FailReport(s.tables, s.workers[w].claim, Carried(s, s.workers[w]))
    requires s1.calls == RecordedCalls(s.calls, s.workers[w].pending, 1)
    ensures Reaches(s0, s', true) && Fails(s, s', w, 1)
  {
    s' := Unlocks(s0, s1, w, true);
    S.FailTimesUnrolled(s.tables, s.workers[w].claim, Carried(s, s.workers[w]));
  }

  lemma {:induction false} EndGivenUp(s0: State, s: State, w: Worker, failsLate: bool) returns (s': State)
    requires Reaches(s0, s, true) && w in s.workers && s.workers[w].Failing? && s.lock == Some(w)
    ensures Reaches(s0, s', true) && Fails(s, s', w, if failsLate then 1 else 0)
  {
    var s1 := GivesUp(s0, s, w, true);
    s' := EndLate(s0, s1, w, failsLate);
    assert s1.workers - {w} == s.workers - {w};
  }

  /** From a failure under the lock on, for every combination of faults. */
  lemma {:induction false} EndInLock(s0: State, s: State, w: Worker, o: S.Outcomes) returns (s': State)
    requires Reaches(s0, s, true) && w in s.workers && s.workers[w].Failing? && s.lock == Some(w)
    ensures Reaches(s0, s', true) && Fails(s, s', w, FailuresInLock(o))
  {
    if !o.failsInLock {
      s' := EndGivenUp(s0, s, w, o.failsLate);
    } else {
      CarriedIsKnown(s0, s, w);
      var s1 := RecordsFailure(s0, s, w);
      if o.unlocks {
        s' := EndReleased(s0, s, s1, w);
      } else {
        s' := EndUnlocked(s0, s, s1, w, o.failsLate);
      }
    }
  }

  lemma CarriedIsKnown(s0: State, s: State, w: Worker)
    requires Reaches(s0, s, true) && w in s.workers
    ensures ClaimOk(s.tables, s.workers[w].claim)
    ensures CallOf(s.workers[w]).Some? ==> CallOf(s.workers[w]).value < |s.calls|
  {
    ReachesPhases(s0, s, true);
    assert PhaseOk(s, s.workers[w]);
  }

  // ---- The whole call ----

  /** The calls after a `process` call: one more if the model was called and returned. */
  function CallsAfter(s: State, c: Claim, o: S.Outcomes): seq<Call> {
    if S.AdmittedCall(o, s.tables.reports).Some?
    then s.calls + [Call(c.report, o.call.value, o.month, o.projected.value, S.Charges(o, s.tables.reports))]
    else s.calls
  }

  /** s' is what the `process` call leaves of s, from the marked tables on. */
  ghost predicate ProcessedTo(s: State, s': State, w: Worker, c: Claim, o: S.Outcomes) {
    && ClaimOk(s.tables, c) && s'.tables == S.ProcessedMarked(s.tables, c, o) && s'.calls == CallsAfter(s, c, o)
    && s'.workers == s.workers - {w} && s'.lock.None?
  }

  /** The report is completed, and then the lock is released or lost. */
  lemma CompletesAlone(s0: State, s: State, w: Worker, unlocks: bool) returns (s': State)
    requires Reaches(s0, s, true) && w in s.workers && s.workers[w].Returned? && s.lock == Some(w)
    ensures Reaches(s0, s', true) && s'.workers == s.workers - {w} && s'.lock.None?
    ensures ClaimOk(s.tables, s.workers[w].claim) && s.workers[w].call < |s.calls|
    ensures s'.tables == CompleteReport(s.tables, s.workers[w].claim, s.calls[s.workers[w].call].usage)
    ensures s'.calls == RecordedCalls(s.calls, Some(s.workers[w].call), 1)
  {
    CarriedIsKnown(s0, s, w);
    var s1 := RecordsCompletion(s0, s, w);
    s' := Releases(s0, s1, w, unlocks);
  }

  lemma RecordsCompletion(s0: State, s: State, w: Worker) returns (s': State)
    requires Reaches(s0, s, true) && w in s.workers && s.workers[w].Returned? && s.lock == Some(w)
    requires ClaimOk(s.tables, s.workers[w].claim) && s.workers[w].call < |s.calls|
    ensures Reaches(s0, s', true) && s'.lock == s.lock
    ensures var p := s.workers[w];
            && s'.workers == s.workers[w := Phase.Recorded(p.claim, Some(p.call), true)]
            && s'.tables == CompleteReport(s.tables, p.claim, s.calls[p.call].usage)
            && s'.calls == RecordedCalls(s.calls, Some(p.call), 1)
  {
    s' := Takes(s0, s, Complete(w));
  }

  lemma Releases(s0: State, s: State, w: Worker, unlocks: bool) returns (s': State)
    requires Reaches(s0, s, true) && w in s.workers && s.workers[w].Recorded?
    requires s.workers[w].committed && s.lock == Some(w)
    ensures Reaches(s0, s', true) && s' == s.(workers := s.workers - {w}, lock := None)
  {
    if unlocks {
      s' := Unlocks(s0, s, w, true);
    } else {
      s' := Takes(s0, s, UnlockFails(w));
    }
  }

  lemma Rejects(s0: State, s: State, w: Worker) returns (s': State)
    requires Reaches(s0, s, true) && w in s.workers && s.workers[w].Returned?
    ensures Reaches(s0, s', true)
    ensures var p := s.workers[w]; s' == s.(workers := s.workers[w := Failing(p.claim, Some(p.call))])
  {
    s' := Takes(s0, s, Reject(w));
  }

  lemma NoCall(s0: State, s: State, w: Worker) returns (s': State)
    requires Reaches(s0, s, true) && w in s.workers && s.workers[w].Admitted?
    ensures Reaches(s0, s', true) && s' == s.(workers := s.workers[w := Failing(s.workers[w].claim, None)])
  {
    s' := Takes(s0, s, GenerateFails(w));
  }

  lemma EscapesEarly(s0: State, s: State, w: Worker) returns (s': State)
    requires Reaches(s0, s, true) && w in s.workers && s.workers[w].Working?
    ensures Reaches(s0, s', true) && s' == s.(workers := s.workers[w := Escaped(s.workers[w].claim, None, false)])
  {
    s' := Takes(s0, s, Escape(w));
  }

  /** The task is gone and its call recorded n times, on tables t. */
  ghost predicate Answered(s: State, s': State, w: Worker, usage: Usage, n: nat, t: Tables) {
    && w in s.workers && s.workers[w].Admitted? && s'.workers == s.workers - {w} && s'.lock.None? && s'.tables == t
    && s'.calls == s.calls + [Call(s.workers[w].claim.report, usage, s.workers[w].month, s.workers[w].projected, n)]
  }

  lemma CompletedAlone(s0: State, s: State, w: Worker, usage: Usage, unlocks: bool) returns (s': State)
    requires Reaches(s0, s, true) && w in s.workers && s.workers[w].Admitted? && s.lock == Some(w)
    requires ClaimOk(s.tables, s.workers[w].claim)
    ensures Reaches(s0, s', true)
    ensures Answered(s, s', w, usage, 1, CompleteReport(s.tables, s.workers[w].claim, usage))
  {
    var s1 := Return(s0, s, w, usage, true);
    s' := CompletesAlone(s0, s1, w, unlocks);
  }

  lemma {:induction false} RejectedAlone(s0: State, s: State, w: Worker, usage: Usage, o: S.Outcomes)
    returns (s': State)
    requires Reaches(s0, s, true) && w in s.workers && s.workers[w].Admitted? && s.lock == Some(w)
    requires ClaimOk(s.tables, s.workers[w].claim)
    ensures Reaches(s0, s', true)
    ensures Answered(s, s', w, usage, FailuresInLock(o),
                     S.FailTimes(s.tables, s.workers[w].claim, usage, FailuresInLock(o)))
  {
    var s1 := Return(s0, s, w, usage, true);
    var s2 := Rejects(s0, s1, w);
    s' := EndInLock(s0, s2, w, o);
  }

  lemma {:induction false} EndsWithCall(s0: State, s: State, s1: State, w: Worker, c: Claim, o: S.Outcomes)
    returns (s': State)
    requires Reaches(s0, s1, true) && s1.lock == Some(w) && S.AdmittedCall(o, s.tables.reports).Some?
    requires s1.tables == s.tables && s1.calls == s.calls && w in s1.workers
    requires s1.workers == s.workers[w := s1.workers[w]]
    requires s1.workers[w] == Admitted(c, o.projected.value, o.month)
    ensures Reaches(s0, s', true) && ProcessedTo(s, s', w, c, o)
  {
    CarriedIsKnown(s0, s1, w);
    if o.grounded && o.completes {
      s' := CompletedAlone(s0, s1, w, o.call.value, o.unlocks);
    } else {
      s' := RejectedAlone(s0, s1, w, o.call.value, o);
    }
  }

  /** The task reaches the lock and the spend check. */
  lemma ReachesCheck(s0: State, s: State, w: Worker, c: Claim, o: S.Outcomes) returns (s': State)
    requires Reaches(s0, s, true) && s.lock.None? && w in s.workers && s.workers[w] == Working(c) && o.projected.Some?
    requires o.cap == s.cap && o.month == s.clock.month
    ensures Reaches(s0, s', true) && s'.lock == Some(w) && s'.tables == s.tables && s'.calls == s.calls
    ensures s'.workers == s.workers[w := if S.Admits(o, s.tables.reports) then Admitted(c, o.projected.value, o.month)
                                         else Failing(c, None)]
  {
    var s1 := Projects(s0, s, w, o.projected.value, true);
    var s2 := Acquires(s0, s1, w, true);
    s' := Checks(s0, s2, w, true);
  }

  lemma {:induction false} UnprojectedAlone(s0: State, s: State, w: Worker, c: Claim, o: S.Outcomes) returns (s': State)
    requires Reaches(s0, s, true) && s.lock.None? && w in s.workers && s.workers[w] == Working(c) && o.projected.None?
    ensures Reaches(s0, s', true) && ProcessedTo(s, s', w, c, o)
  {
    var s1 := EscapesEarly(s0, s, w);
    s' := EndLate(s0, s1, w, o.failsLate);
  }

  lemma {:induction false} RefusedAlone(s0: State, s: State, s1: State, w: Worker, c: Claim, o: S.Outcomes)
    returns (s': State)
    requires Reaches(s0, s1, true) && s1.lock == Some(w)
    requires S.AdmittedCall(o, s.tables.reports).None? && o.projected.Some?
    requires s1.tables == s.tables && s1.calls == s.calls && w in s1.workers
    requires s1.workers == s.workers[w := s1.workers[w]]
    requires s1.workers[w] == Failing(c, None)
    ensures Reaches(s0, s', true) && ProcessedTo(s, s', w, c, o)
  {
    s' := EndInLock(s0, s1, w, o);
  }

  lemma {:induction false} MarkedAlone(s0: State, s: State, w: Worker, c: Claim, o: S.Outcomes) returns (s': State)
    requires Reaches(s0, s, true) && s.lock.None? && w in s.workers && s.workers[w] == Working(c)
    requires o.cap == s.cap && o.month == s.clock.month
    ensures Reaches(s0, s', true) && ProcessedTo(s, s', w, c, o)
  {
    if o.projected.None? {
      s' := UnprojectedAlone(s0, s, w, c, o);
    } else {
      var s1 := ReachesCheck(s0, s, w, c, o);
      if !S.Admits(o, s.tables.reports) {
        s' := RefusedAlone(s0, s, s1, w, c, o);
      } else if o.call.None? {
        var s2 := NoCall(s0, s1, w);
        s' := RefusedAlone(s0, s, s2, w, c, o);
      } else {
        s' := EndsWithCall(s0, s, s1, w, c, o);
      }
    }
  }

  /**
   * The steps of one worker, taken alone from any state of the protocol, leave exactly the tables the
   * `process` method leaves, and its model call recorded as often as `Charges` says.
   */
  lemma {:induction false} LoneWorkerIsProcess(s: State, w: Worker, c: Claim, alreadyProcessing: bool, o: S.Outcomes)
    returns (s': State)
    requires Inv(s) && s.lock.None? && w in s.workers && ClaimOk(s.tables, c)
    requires s.workers[w] == if alreadyProcessing then Working(c) else Claimed(c)
    requires o.cap == s.cap && o.month == s.clock.month
    ensures Reaches(s, s', true) && s'.workers == s.workers - {w} && s'.lock.None?
    ensures s'.tables == S.Processed(s.tables, c, alreadyProcessing, o) && s'.calls == CallsAfter(s, c, o)
  {
    ReachesStart(s, true);
    if alreadyProcessing {
      s' := MarkedAlone(s, s, w, c, o);
    } else {
      var s1 := Takes(s, s, Start(w));
      S.MarkingKeepsSpend(s.tables, c, o.month);
      s' := MarkedAlone(s, s1, w, c, o);
    }
  }
}
