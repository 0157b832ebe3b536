/** Runs that pass the cap, each by dropping just one of the conditions under which it is hard. */
module AiBudgetLimits {
  import opened Wrappers
  import opened AiTables
  import opened AiBudget
  import opened AiBudgetProofs
  import opened AiBudgetRuns
  import Cost

  // ---- Building runs ----

  ghost predicate Holds(states: seq<State>, i: int) {
    0 <= i < |states| && Inv(states[i])
  }

  ghost predicate Moves(states: seq<State>, steps: seq<Step>, i: int, late: bool) {
    && 0 <= i < |steps| && i + 1 < |states|
    && Next(states[i], steps[i], states[i + 1]) && (late || !ChargesLate(states[i], steps[i]))
  }

  /** The steps lead from s0 to s; unless `late` is set, none records a charge outside the lock. */
  ghost predicate Leads(states: seq<State>, steps: seq<Step>, s0: State, s: State, late: bool) {
    && |states| == |steps| + 1 && states[0] == s0 && states[|steps|] == s
    && (forall i {:trigger Holds(states, i)} :: 0 <= i < |states| ==> Holds(states, i))
    && (forall i {:trigger Moves(states, steps, i, late)} :: 0 <= i < |steps| ==> Moves(states, steps, i, late))
  }

  ghost predicate Reaches(s0: State, s: State, late: bool) {
    exists states, steps :: Leads(states, steps, s0, s, late)
  }

  lemma ReachesStart(s: State, late: bool)
    requires Inv(s)
    ensures Reaches(s, s, late)
  {
    assert Leads([s], [], s, s, late);
  }

  lemma LeadsOn(
    states: seq<State>, steps: seq<Step>, s0: State, s: State, step: Step, s': State, late: bool,
    states': seq<State>, steps': seq<Step>)
    requires Leads(states, steps, s0, s, late) && Next(s, step, s') && (late || !ChargesLate(s, step)) && Inv(s')
    requires states' == states + [s'] && steps' == steps + [step]
    ensures Leads(states', steps', s0, s', late)
  {
    forall i | 0 <= i < |states'| ensures Holds(states', i) {
      if i < |states| { assert Holds(states, i); }
    }
    forall i | 0 <= i < |steps'| ensures Moves(states', steps', i, late) {
      if i < |steps| { assert Moves(states, steps, i, late); }
    }
  }

  lemma ReachesNext(s0: State, s: State, step: Step, s': State, late: bool)
    requires Reaches(s0, s, late) && Next(s, step, s') && (late || !ChargesLate(s, step))
    ensures Reaches(s0, s', late)
  {
    var states, steps :| Leads(states, steps, s0, s, late);
    assert Holds(states, |steps|);
    StepKeepsInv(s, step);
    LeadsOn(states, steps, s0, s, step, s', late, states + [s'], steps + [step]);
  }

  lemma ReachesInv(s0: State, s: State, late: bool)
    requires Reaches(s0, s, late)
    ensures Inv(s)
  {
    var states, steps :| Leads(states, steps, s0, s, late);
    assert Holds(states, |steps|);
  }

  ghost predicate RunTo(states: seq<State>, steps: seq<Step>, cap: nat, clock: Clock, s: State, late: bool) {
    && Run(states, steps, cap, clock) && states[|steps|] == s
    && (late || forall i :: 0 <= i < |steps| ==> !ChargesLate(states[i], steps[i]))
  }

  /** What can be reached from the start is reached by a run. */
  lemma ReachedByRun(cap: nat, clock: Clock, s: State, late: bool) returns (states: seq<State>, steps: seq<Step>)
    requires Reaches(Init(cap, clock), s, late)
    ensures RunTo(states, steps, cap, clock, s, late)
  {
    states, steps :| Leads(states, steps, Init(cap, clock), s, late);
    forall i | 0 <= i < |steps|
      ensures Next(states[i], steps[i], states[i + 1]) && (late || !ChargesLate(states[i], steps[i]))
    {
      assert Moves(states, steps, i, late);
    }
  }

  // ---- Stretches of a run ----

  /** Nothing but the tables' statuses differs. */
  ghost predicate SameHistory(s: State, s': State) {
    && s'.calls == s.calls && s'.excess == s.excess && s'.cap == s.cap && s'.clock == s.clock
    && |s'.tables.reports| == |s.tables.reports| && SameMoney(s.tables.reports, s'.tables.reports)
  }

  lemma StartKeepsMoney(s: State, w: Worker)
    requires Inv(s) && w in s.workers && s.workers[w].Claimed?
    ensures var s' := Apply(s, Start(w));
            Next(s, Start(w), s') && SameHistory(s, s') && s'.lock == s.lock
            && s'.workers == s.workers[w := Working(s.workers[w].claim)]
  {
    assert PhaseOk(s, s.workers[w]);
    TransactionsTouch(s.tables, s.workers[w].claim, Nothing());
  }

  /** A waiting task gets its reservation if it fits the current month. */
  lemma Admit(s0: State, s: State, w: Worker, projected: nat, late: bool) returns (s': State)
    requires Reaches(s0, s, late) && s.lock.None? && w in s.workers && s.workers[w].Claimed?
    requires Spend(s.tables.reports, s.clock.month) + projected <= s.cap
    ensures Reaches(s0, s', late) && SameHistory(s, s') && s'.lock == Some(w)
    ensures s'.workers == s.workers[w := Admitted(s.workers[w].claim, projected, s.clock.month)]
  {
    var s1 := Starts(s0, s, w, late);
    SpendSame(s.tables.reports, s1.tables.reports, s.clock.month);
    s' := Reserve(s0, s1, w, projected, late);
  }

  lemma Starts(s0: State, s: State, w: Worker, late: bool) returns (s': State)
    requires Reaches(s0, s, late) && w in s.workers && s.workers[w].Claimed?
    ensures Reaches(s0, s', late) && SameHistory(s, s') && s'.lock == s.lock
    ensures s'.workers == s.workers[w := Working(s.workers[w].claim)]
  {
    ReachesInv(s0, s, late);
    StartKeepsMoney(s, w);
    s' := Apply(s, Start(w));
    ReachesNext(s0, s, Start(w), s', late);
  }

  lemma Projects(s0: State, s: State, w: Worker, projected: nat, late: bool) returns (s': State)
    requires Reaches(s0, s, late) && w in s.workers && s.workers[w].Working?
    ensures Reaches(s0, s', late) && s' == s.(workers := s.workers[w := Waiting(s.workers[w].claim, projected)])
  {
    ReachesPhases(s0, s, late);
    s' := Apply(s, Project(w, projected));
    ReachesNext(s0, s, Project(w, projected), s', late);
  }

  lemma Acquires(s0: State, s: State, w: Worker, late: bool) returns (s': State)
    requires Reaches(s0, s, late) && w in s.workers && s.workers[w].Waiting? && s.lock.None?
    ensures Reaches(s0, s', late)
    ensures var p := s.workers[w]; s' == s.(workers := s.workers[w := Holding(p.claim, p.projected)], lock := Some(w))
  {
    ReachesPhases(s0, s, late);
    s' := Apply(s, Acquire(w));
    ReachesNext(s0, s, Acquire(w), s', late);
  }

  lemma Checks(s0: State, s: State, w: Worker, late: bool) returns (s': State)
    requires Reaches(s0, s, late) && w in s.workers && s.workers[w].Holding? && s.lock == Some(w)
    ensures Reaches(s0, s', late)
    ensures var p := s.workers[w];
            s' == s.(workers := s.workers[w :=
              if Spend(s.tables.reports, s.clock.month) + p.projected > s.cap then Failing(p.claim, None)
              else Admitted(p.claim, p.projected, s.clock.month)])
  {
    ReachesPhases(s0, s, late);
    s' := Apply(s, Check(w));
    ReachesNext(s0, s, Check(w), s', late);
  }

  lemma Reserve(s0: State, s: State, w: Worker, projected: nat, late: bool) returns (s': State)
    requires Reaches(s0, s, late) && s.lock.None? && w in s.workers && s.workers[w].Working?
    requires Spend(s.tables.reports, s.clock.month) + projected <= s.cap
    ensures Reaches(s0, s', late) && s'.tables == s.tables && SameHistory(s, s') && s'.lock == Some(w)
    ensures s'.workers == s.workers[w := Admitted(s.workers[w].claim, projected, s.clock.month)]
  {
    var s1 := Projects(s0, s, w, projected, late);
    var s2 := Acquires(s0, s1, w, late);
    s' := Checks(s0, s2, w, late);
  }

  lemma ReachesPhases(s0: State, s: State, late: bool)
    requires Reaches(s0, s, late)
    ensures PhasesOk(s)
  {
    ReachesInv(s0, s, late);
  }

  /** The admitted call returns. */
  lemma Return(s0: State, s: State, w: Worker, usage: Usage, late: bool) returns (s': State)
    requires Reaches(s0, s, late) && w in s.workers && s.workers[w].Admitted?
    ensures Reaches(s0, s', late) && s'.tables == s.tables && s'.excess == s.excess && s'.lock == s.lock
    ensures s'.cap == s.cap && s'.clock == s.clock
    ensures var p := s.workers[w];
            && s'.workers == s.workers[w := Returned(p.claim, |s.calls|)]
            && s'.calls == s.calls + [Call(p.claim.report, usage, p.month, p.projected, 0)]
  {
    ReachesPhases(s0, s, late);
    s' := Apply(s, Generate(w, usage));
    ReachesNext(s0, s, Generate(w, usage), s', late);
  }

  /** What recording one call, in whatever way, does to the money. */
  ghost predicate AddsCharge(s: State, s': State, c: nat) {
    && c < |s.calls| && s.calls[c].report < |s.tables.reports|
    && s'.calls == s.calls[c := s.calls[c].(times := s.calls[c].times + 1)]
    && |s'.tables.reports| == |s.tables.reports| && s'.cap == s.cap && s'.clock == s.clock
    && (forall r :: 0 <= r < |s.tables.reports| ==> s'.tables.reports[r].month == s.tables.reports[r].month)
    && forall m :: Spend(s'.tables.reports, m) ==
         Spend(s.tables.reports, m)
         + (if s.tables.reports[s.calls[c].report].month == m then s.calls[c].usage.cost else 0)
  }

  lemma RecordCharges(s: State, claim: Claim, c: nat, complete: bool, late: bool)
    requires ClaimOk(s.tables, claim) && c < |s.calls| && s.calls[c].report == claim.report
    ensures AddsCharge(s, Record(s, claim, Some(c), complete, late), c)
  {
    forall m ensures Spend(Record(s, claim, Some(c), complete, late).tables.reports, m) ==
        Spend(s.tables.reports, m) + (if s.tables.reports[claim.report].month == m then s.calls[c].usage.cost else 0) {
      RecordSpends(s, claim, c, complete, late, m);
    }
  }

  lemma Completes(s0: State, s: State, w: Worker, late: bool) returns (s': State)
    requires Reaches(s0, s, late) && s.lock == Some(w) && w in s.workers && s.workers[w].Returned?
    ensures Reaches(s0, s', late) && AddsCharge(s, s', s.workers[w].call) && s'.lock == s.lock
    ensures var p := s.workers[w]; s'.workers == s.workers[w := Recorded(p.claim, Some(p.call), true)]
  {
    ReachesPhases(s0, s, late);
    var p := s.workers[w];
    assert PhaseOk(s, p);
    RecordCharges(s, p.claim, p.call, true, false);
    s' := Apply(s, Complete(w));
    ReachesNext(s0, s, Complete(w), s', late);
  }

  lemma Unlocks(s0: State, s: State, w: Worker, late: bool) returns (s': State)
    requires Reaches(s0, s, late) && s.lock == Some(w) && w in s.workers && s.workers[w].Recorded?
    ensures Reaches(s0, s', late) && s' == s.(workers := s.workers - {w}, lock := None)
  {
    ReachesPhases(s0, s, late);
    s' := Apply(s, Unlock(w));
    ReachesNext(s0, s, Unlock(w), s', late);
  }

  /** The returned call is recorded under the lock, and the task ends. */
  lemma Finish(s0: State, s: State, w: Worker, late: bool) returns (s': State)
    requires Reaches(s0, s, late) && s.lock == Some(w) && w in s.workers && s.workers[w].Returned?
    ensures Reaches(s0, s', late) && AddsCharge(s, s', s.workers[w].call)
    ensures s'.lock.None? && s'.workers == s.workers - {w}
  {
    var s1 := Completes(s0, s, w, late);
    s' := Unlocks(s0, s1, w, late);
  }

  // ---- A backlog of scheduled reports ----

  lemma Schedules(s0: State, s: State, w: Worker, repository: int, late: bool) returns (s': State)
    requires Reaches(s0, s, late) && w !in s.workers
    requires forall i :: 0 <= i < |s.tables.reports| ==> s.tables.reports[i].repository != repository
    ensures Reaches(s0, s', late)
    ensures s' == s.(workers := s.workers[w := Claimed(Claim(|s.tables.reports|, None))],
                     tables := s.tables.(reports :=
                       s.tables.reports + [NewReport(None, repository, WeeklyDigest, s.clock)]))
  {
    ReachesPhases(s0, s, late);
    var step := Schedule(w, repository, WeeklyDigest, s.clock.now);
    s' := Apply(s, step);
    ReachesNext(s0, s, step, s', late);
  }

  lemma Ticks(s0: State, s: State, clock: Clock, late: bool) returns (s': State)
    requires Reaches(s0, s, late)
    ensures Reaches(s0, s', late) && s' == s.(clock := clock)
  {
    ReachesPhases(s0, s, late);
    s' := Apply(s, Tick(clock));
    ReachesNext(s0, s, Tick(clock), s', late);
  }

  /** Tasks k to n - 1 wait for the reports of the same number, all requested in month m. */
  ghost predicate Queued(s: State, k: nat, n: nat, m: int) {
    && s.lock.None? && |s.tables.reports| == n
    && (forall i :: 0 <= i < n ==> s.tables.reports[i].month == m)
    && (forall i: nat :: k <= i < n ==> i in s.workers && s.workers[i] == Claimed(Claim(i, None)))
  }

  ghost predicate Numbered(reports: seq<Report>) {
    forall i :: 0 <= i < |reports| ==> reports[i].repository == i && reports[i].usage == Nothing()
  }

  lemma {:induction false} Unspent(reports: seq<Report>, m: int)
    requires Numbered(reports)
    ensures Spend(reports, m) == 0
    decreases |reports|
  {
    if reports != [] { Unspent(reports[..|reports| - 1], m); }
  }

  lemma {:induction false} Backlog(n: nat, cap: nat, clock: Clock, late: bool) returns (s: State)
    ensures Reaches(Init(cap, clock), s, late) && Queued(s, 0, n, clock.month) && Numbered(s.tables.reports)
    ensures s.cap == cap && s.clock == clock && s.calls == [] && forall w :: w in s.workers ==> w < n
  {
    if n == 0 {
      s := Init(cap, clock);
      ReachesStart(s, late);
    } else {
      var before := Backlog(n - 1, cap, clock, late);
      s := Schedules(Init(cap, clock), before, n - 1, n - 1, late);
    }
  }

  /** s' is s after one more call on report r, admitted now and recorded once. */
  ghost predicate Served(s: State, s': State, r: nat, projected: nat, usage: Usage) {
    && r < |s.tables.reports| && |s'.tables.reports| == |s.tables.reports| && s'.cap == s.cap && s'.clock == s.clock
    && s'.calls == s.calls + [Call(r, usage, s.clock.month, projected, 1)]
    && (forall i :: 0 <= i < |s.tables.reports| ==> s'.tables.reports[i].month == s.tables.reports[i].month)
    && forall x :: Spend(s'.tables.reports, x)
                   == Spend(s.tables.reports, x) + if x == s.tables.reports[r].month then usage.cost else 0
  }

  /** A reservation, a returned call and its recording, put together. */
  lemma ServedAfter(s: State, s1: State, s2: State, s': State, r: nat, projected: nat, usage: Usage)
    requires SameHistory(s, s1) && r < |s.tables.reports|
    requires s2.tables == s1.tables && s2.cap == s.cap && s2.clock == s.clock
    requires s2.calls == s.calls + [Call(r, usage, s.clock.month, projected, 0)] && AddsCharge(s2, s', |s.calls|)
    ensures Served(s, s', r, projected, usage)
  {
    SpendsSame(s, s1);
  }

  lemma Serve(s0: State, s: State, w: Worker, projected: nat, usage: Usage, late: bool) returns (s': State)
    requires Reaches(s0, s, late) && s.lock.None? && w in s.workers && s.workers[w].Claimed?
    requires s.workers[w].claim.report < |s.tables.reports|
    requires Spend(s.tables.reports, s.clock.month) + projected <= s.cap
    ensures Reaches(s0, s', late) && Served(s, s', s.workers[w].claim.report, projected, usage)
    ensures s'.lock.None? && s'.workers == s.workers - {w}
  {
    var s1 := Admit(s0, s, w, projected, late);
    var s2 := Return(s0, s1, w, usage, late);
    s' := Finish(s0, s2, w, late);
    ServedAfter(s, s1, s2, s', s.workers[w].claim.report, projected, usage);
  }

  lemma SpendsSame(s: State, s': State)
    requires SameHistory(s, s')
    ensures forall x :: Spend(s'.tables.reports, x) == Spend(s.tables.reports, x)
  {
    forall x ensures Spend(s'.tables.reports, x) == Spend(s.tables.reports, x) {
      SpendSame(s.tables.reports, s'.tables.reports, x);
    }
  }

  /** The calls from number `from` on are all alike. */
  predicate Alike(calls: seq<Call>, from: nat, usage: Usage, month: int, projected: nat) {
    forall c :: from <= c < |calls| ==>
      calls[c].usage == usage && calls[c].month == month && calls[c].projected == projected
  }

  /** s' is s after the tasks k to n - 1 have gone through with like calls. */
  ghost predicate ServedAll(s: State, s': State, k: nat, n: nat, m: int, projected: nat, usage: Usage)
    requires k <= n
  {
    && s'.cap == s.cap && s'.clock == s.clock && s'.lock.None? && |s'.calls| == |s.calls| + (n - k)
    && s'.calls[..|s.calls|] == s.calls && Alike(s'.calls, |s.calls|, usage, s.clock.month, projected)
    && Queued(s', n, n, m)
    && (forall w :: w in s.workers && !(k <= w < n) ==> w in s'.workers && s'.workers[w] == s.workers[w])
    && forall x :: Spend(s'.tables.reports, x)
                   == Spend(s.tables.reports, x) + if x == m then (n - k) * usage.cost else 0
  }

  /** What is spent in the current month while j such tasks go through. */
  function SpentMeanwhile(s: State, m: int, usage: Usage, j: nat): nat {
    Spend(s.tables.reports, s.clock.month) + if s.clock.month == m then j * usage.cost else 0
  }

  lemma OneMore(j: nat, cost: nat)
    ensures (j + 1) * cost == j * cost + cost
  {}

  lemma ServedOneMore(
    s: State, s1: State, s': State, k: nat, n: nat, m: int, projected: nat, usage: Usage)
    requires k < n && Queued(s, k, n, m) && Served(s, s1, k, projected, usage) && s1.workers == s.workers - {k}
    requires ServedAll(s1, s', k + 1, n, m, projected, usage)
    ensures ServedAll(s, s', k, n, m, projected, usage)
  {
    OneMore(n - k - 1, usage.cost);
    assert s'.calls[..|s.calls|] == s'.calls[..|s1.calls|][..|s.calls|];
    forall c | |s.calls| <= c < |s'.calls|
      ensures s'.calls[c].usage == usage && s'.calls[c].month == s.clock.month && s'.calls[c].projected == projected
    {
      if c == |s.calls| { assert s'.calls[c] == s'.calls[..|s1.calls|][c] == s1.calls[c]; }
    }
  }

  /** Queued tasks go through one after the other as long as the current month leaves room for each. */
  lemma {:induction false} ServeAll(
    s0: State, s: State, k: nat, n: nat, m: int, projected: nat, usage: Usage, late: bool) returns (s': State)
    requires Reaches(s0, s, late) && k <= n && Queued(s, k, n, m)
    requires k < n ==> SpentMeanwhile(s, m, usage, n - k - 1) + projected <= s.cap
    ensures Reaches(s0, s', late) && ServedAll(s, s', k, n, m, projected, usage)
    decreases n - k
  {
    if k == n {
      s' := s;
    } else {
      if k + 1 < n { OneMore(n - k - 2, usage.cost); }
      var s1 := Serve(s0, s, k, projected, usage, late);
      s' := ServeAll(s0, s1, k + 1, n, m, projected, usage, late);
      ServedOneMore(s, s1, s', k, n, m, projected, usage);
    }
  }

  // ---- Calls the worker can make ----

  /** A digest the settings allow: a priced model, and an output ceiling between 256 and 8192 tokens. */
  predicate Allowed(b: Billing) {
    Cost.RatesOf(b.model).Some? && b.counted > 0 && 256 <= b.maxTokens <= 8192
  }

  function ProjectionOf(b: Billing): nat
    requires Allowed(b)
  {
    Cost.ProjectedCost(b.model, b.counted, b.maxTokens).value
  }

  function UsageOf(b: Billing): Usage
    requires Allowed(b)
  {
    Usage(b.input + b.cacheWrite + b.cacheRead, b.output,
          Cost.CalculateCost(b.model, b.input, b.output, b.cacheWrite, b.cacheRead).value, 0)
  }

  /** All input is written to the cache and the output is as long as it may be. */
  predicate InFull(b: Billing) {
    b.input == 0 && b.cacheWrite == b.counted && b.cacheRead == 0 && b.output == b.maxTokens
  }

  /** No projection is smaller than 1280 millionths, so a smaller cap admits nothing. */
  lemma ProjectionsHaveAMinimum(b: Billing)
    requires Allowed(b)
    ensures ProjectionOf(b) > 1280
  {}

  lemma FullBillsMeetTheProjection(b: Billing)
    requires Allowed(b) && InFull(b)
    ensures KeepsToCount(b) && UsageOf(b).cost == ProjectionOf(b) > 0
  {
    Cost.ProjectionIsAttained(b.model, b.counted, b.maxTokens);
    ProjectionsHaveAMinimum(b);
  }

  lemma AlikeArePriced(calls: seq<Call>, b: Billing, month: int)
    requires Allowed(b) && KeepsToCount(b) && Alike(calls, 0, UsageOf(b), month, ProjectionOf(b))
    ensures forall c :: 0 <= c < |calls| ==> Priced(calls[c], b)
  {}

  /**
   * The straddle has no bound. Take any call the worker can make and any cap that admits it: n reports
   * left over from one month, each with such a call and recorded under the lock, are all admitted in
   * another month, and the month they were requested in ends at n times the call's cost.
   */
  lemma {:induction false} BacklogMultipliesCost(n: nat, b: Billing, cap: nat, clock: Clock, later: Clock)
    returns (states: seq<State>, steps: seq<Step>, s: State)
    requires Allowed(b) && KeepsToCount(b) && ProjectionOf(b) <= cap && later.month != clock.month
    ensures RunTo(states, steps, cap, clock, s, false) && |s.calls| == n
    ensures forall c :: 0 <= c < n ==> Priced(s.calls[c], b)
    ensures Spend(s.tables.reports, clock.month) == n * UsageOf(b).cost
  {
    var projected, usage := ProjectionOf(b), UsageOf(b);
    var queued := Backlog(n, cap, clock, false);
    Unspent(queued.tables.reports, clock.month);
    Unspent(queued.tables.reports, later.month);
    var ticked := Ticks(Init(cap, clock), queued, later, false);
    s := ServeAll(Init(cap, clock), ticked, 0, n, clock.month, projected, usage, false);
    states, steps := ReachedByRun(cap, clock, s, false);
    AlikeArePriced(s.calls, b, later.month);
  }

  lemma PastTheCap(cap: nat, cost: nat)
    requires cost > 0
    ensures cap / cost * cost <= cap < (cap / cost + 1) * cost
  {
    OneMore(cap / cost, cost);
  }

  /** So a backlog passes every cap that admits anything, with nothing recorded late and every call priced. */
  lemma StraddlePassesCap(b: Billing, cap: nat, clock: Clock, later: Clock)
    returns (states: seq<State>, steps: seq<Step>, s: State)
    requires Allowed(b) && InFull(b) && ProjectionOf(b) <= cap && later.month != clock.month
    ensures RunTo(states, steps, cap, clock, s, false)
    ensures forall c :: 0 <= c < |s.calls| ==> Priced(s.calls[c], b)
    ensures Spend(s.tables.reports, clock.month) > cap
  {
    FullBillsMeetTheProjection(b);
    PastTheCap(cap, UsageOf(b).cost);
    states, steps, s := BacklogMultipliesCost(cap / UsageOf(b).cost + 1, b, cap, clock, later);
  }

  lemma MoreTokensCostMore(b: Billing, cap: nat)
    requires Allowed(b) && b.input > cap
    ensures UsageOf(b).cost > cap
  {}

  /**
   * With nothing recorded late and everything in its month, one call that is billed for more tokens than
   * were counted passes any cap that admits it.
   */
  lemma {:induction false} OverrunPassesCap(b: Billing, cap: nat, clock: Clock)
    returns (states: seq<State>, steps: seq<Step>, s: State)
    requires Allowed(b) && ProjectionOf(b) <= cap && b.input > b.counted + cap
    ensures RunTo(states, steps, cap, clock, s, false) && |s.calls| == 1
    ensures Billed(s.calls[0], b) && Timely(s, s.calls[0])
    ensures Spend(s.tables.reports, clock.month) > cap
  {
    MoreTokensCostMore(b, cap);
    var queued := Backlog(1, cap, clock, false);
    Unspent(queued.tables.reports, clock.month);
    s := Serve(Init(cap, clock), queued, 0, ProjectionOf(b), UsageOf(b), false);
    states, steps := ReachedByRun(cap, clock, s, false);
  }

  // ---- A cap below every projection ----

  predicate Unaffordable(p: Phase, cap: nat) {
    && !p.Admitted? && CallOf(p).None?
    && (p.Waiting? ==> p.projected > cap) && (p.Holding? ==> p.projected > cap)
  }

  ghost predicate Idle(s: State) {
    s.calls == [] && forall w :: w in s.workers ==> Unaffordable(s.workers[w], s.cap)
  }

  lemma UnaffordableStep(s: State, step: Step)
    requires Inv(s) && Idle(s) && Enabled(s, step) && (step.Project? ==> step.projected > s.cap)
    ensures Idle(Apply(s, step))
  {
    if IsIntake(step) {
      StepIsIntake(s, step);
      IntakeStaysIdle(s, Apply(s, step));
    } else if IsQuiet(step) {
      QuietStaysIdle(s, step);
    } else {
      EndStaysIdle(s, step);
    }
  }

  lemma IntakeStaysIdle(s: State, s': State)
    requires Idle(s) && IntakeOf(s, s')
    ensures Idle(s')
  {}

  lemma QuietStaysIdle(s: State, step: Step)
    requires PhasesOk(s) && Idle(s) && Enabled(s, step) && IsQuiet(step) && (step.Project? ==> step.projected > s.cap)
    ensures Idle(Apply(s, step))
  {
    if step.worker in s.workers { assert Unaffordable(s.workers[step.worker], s.cap); }
  }

  lemma RecordStaysIdle(s: State, step: Step)
    requires PhasesOk(s) && Idle(s) && Enabled(s, step) && (step.FailInLock? || step.LateFail?)
    ensures Idle(Apply(s, step))
  {
    var p := s.workers[step.worker];
    assert Unaffordable(p, s.cap) && PhaseOk(s, p);
    var recorded := Record(s, p.claim, None, false, step.LateFail?);
    assert recorded.calls == s.calls && recorded.workers == s.workers && recorded.cap == s.cap;
  }

  /** The steps that end a task have no call to record. */
  lemma EndStaysIdle(s: State, step: Step)
    requires PhasesOk(s) && Idle(s) && Enabled(s, step) && !IsIntake(step) && !IsQuiet(step)
    ensures Idle(Apply(s, step))
  {
    assert Unaffordable(s.workers[step.worker], s.cap);
    if step.FailInLock? || step.LateFail? { RecordStaysIdle(s, step); }
  }

  /** Where every projection exceeds the cap no call is ever made, so no month ever costs anything. */
  lemma {:induction false} UnaffordableCallsAreNotMade(
    states: seq<State>, steps: seq<Step>, cap: nat, clock: Clock, n: nat)
    requires Run(states, steps, cap, clock) && n < |states|
    requires forall i :: 0 <= i < n && steps[i].Project? ==> steps[i].projected > cap
    ensures Idle(states[n])
  {
    if n > 0 {
      var k := n - 1;
      UnaffordableCallsAreNotMade(states, steps, cap, clock, k);
      RunKeepsInv(states, steps, cap, clock, k);
      assert Next(states[k], steps[k], states[k + 1]);
      UnaffordableStep(states[k], steps[k]);
    }
  }

  // ---- A charge recorded outside the lock ----

  /** The call returned, but neither completing nor failing the report under the lock went through. */
  lemma Escapes(s0: State, s: State, w: Worker, late: bool) returns (s': State)
    requires Reaches(s0, s, late) && w in s.workers && s.workers[w].Returned? && s.lock == Some(w)
    ensures Reaches(s0, s', late)
    ensures var p := s.workers[w];
            s' == s.(workers := s.workers[w := Escaped(p.claim, Some(p.call), false)], lock := None)
  {
    ReachesPhases(s0, s, late);
    var s1 := Apply(s, Reject(w));
    ReachesNext(s0, s, Reject(w), s1, late);
    s' := GivesUp(s0, s1, w, late);
  }

  lemma GivesUp(s0: State, s: State, w: Worker, late: bool) returns (s': State)
    requires Reaches(s0, s, late) && w in s.workers && s.workers[w].Failing? && s.lock == Some(w)
    ensures Reaches(s0, s', late)
    ensures var p := s.workers[w];
            s' == s.(workers := s.workers[w := Escaped(p.claim, p.pending, false)], lock := None)
  {
    ReachesPhases(s0, s, late);
    s' := Apply(s, FailInLockFails(w));
    ReachesNext(s0, s, FailInLockFails(w), s', late);
  }

  /** The fallback records the charge after all. */
  lemma FailsLate(s0: State, s: State, w: Worker) returns (s': State)
    requires Reaches(s0, s, true) && w in s.workers && s.workers[w].Escaped? && s.workers[w].carried.Some?
    ensures Reaches(s0, s', true) && AddsCharge(s, s', s.workers[w].carried.value)
  {
    ReachesPhases(s0, s, true);
    var p := s.workers[w];
    assert PhaseOk(s, p);
    RecordCharges(s, p.claim, p.carried.value, false, true);
    s' := Apply(s, LateFail(w));
    ReachesNext(s0, s, LateFail(w), s', true);
  }

  /** Of n + 1 tasks the first has made its call and carries the charge outside the lock. */
  lemma OneEscapes(n: nat, cap: nat, clock: Clock, projected: nat, usage: Usage) returns (s: State)
    requires projected <= cap
    ensures Reaches(Init(cap, clock), s, true) && s.cap == cap && s.clock == clock
    ensures Queued(s, 1, n + 1, clock.month) && 0 in s.workers
    ensures s.workers[0] == Escaped(Claim(0, None), Some(0), false)
    ensures s.calls == [Call(0, usage, clock.month, projected, 0)]
    ensures Spend(s.tables.reports, clock.month) == 0
  {
    var s0 := Init(cap, clock);
    var queued := Backlog(n + 1, cap, clock, true);
    Unspent(queued.tables.reports, clock.month);
    var s1 := Admit(s0, queued, 0, projected, true);
    SpendsSame(queued, s1);
    var s2 := Return(s0, s1, 0, usage, true);
    s := Escapes(s0, s2, 0, true);
  }

  ghost predicate ReportsExist(s: State) {
    forall c :: 0 <= c < |s.calls| ==> s.calls[c].report < |s.tables.reports|
  }

  lemma ReachedReportsExist(s0: State, s: State, late: bool)
    requires Reaches(s0, s, late)
    ensures ReportsExist(s)
  {
    ReachesInv(s0, s, late);
  }

  lemma AfterLateCharge(
    s1: State, s2: State, s: State, n: nat, m: int, projected: nat, usage: Usage)
    requires ServedAll(s1, s2, 1, n + 1, m, projected, usage) && AddsCharge(s2, s, 0) && s1.clock.month == m
    requires s1.calls == [Call(0, usage, m, projected, 0)] && Spend(s1.tables.reports, m) == 0 && ReportsExist(s)
    ensures Alike(s.calls, 0, usage, m, projected) && forall c :: 0 <= c < |s.calls| ==> Timely(s, s.calls[c])
    ensures Spend(s.tables.reports, m) == (n + 1) * usage.cost
  {
    OneMore(n, usage.cost);
    assert s2.calls[0] == s2.calls[..1][0];
  }

  /**
   * With every call priced and in its month, one charge recorded late passes any cap that admits it: the
   * others fill the month up to the last that fits, and the late charge comes on top.
   */
  lemma {:induction false} LateChargePassesCap(b: Billing, cap: nat, clock: Clock)
    returns (states: seq<State>, steps: seq<Step>, s: State)
    requires Allowed(b) && InFull(b) && ProjectionOf(b) <= cap
    ensures RunTo(states, steps, cap, clock, s, true)
    ensures forall c :: 0 <= c < |s.calls| ==> Priced(s.calls[c], b) && Timely(s, s.calls[c])
    ensures Spend(s.tables.reports, clock.month) > cap
  {
    FullBillsMeetTheProjection(b);
    var s0, projected, usage := Init(cap, clock), ProjectionOf(b), UsageOf(b);
    var n := cap / projected;
    PastTheCap(cap, projected);
    var s1 := OneEscapes(n, cap, clock, projected, usage);
    if n > 0 { OneMore(n - 1, projected); }
    var s2 := ServeAll(s0, s1, 1, n + 1, clock.month, projected, usage, true);
    s := FailsLate(s0, s2, 0);
    ReachedReportsExist(s0, s, true);
    AfterLateCharge(s1, s2, s, n, clock.month, projected, usage);
    states, steps := ReachedByRun(cap, clock, s, true);
    AlikeArePriced(s.calls, b, clock.month);
  }
}
