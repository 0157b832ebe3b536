/**
 * Many report workers against one budget: each takes the advisory lock, reads the month's spend,
 * calls the model and records the charge, and any database write, unlock or connection may fail.
 */
module AiBudget {
  import opened Basics
  import opened Wrappers
  import opened AiTables

  type Worker = nat

  /**
   * A model call that returned a report: admitted against `month`'s spend with `projected` reserved,
   * and recorded on its report `times` times so far.
   */
  datatype Call = Call(report: nat, usage: Usage, month: int, projected: nat, times: nat)

  /** Where one `process` task stands. */
  datatype Phase =
    | Claimed(claim: Claim)
    | Working(claim: Claim)
    | Waiting(claim: Claim, projected: nat)
    | Holding(claim: Claim, projected: nat)
    | Admitted(claim: Claim, projected: nat, month: int)
    | Returned(claim: Claim, call: nat)
    | Failing(claim: Claim, pending: Option<nat>)
    | Recorded(claim: Claim, settled: Option<nat>, committed: bool)
    | Escaped(claim: Claim, carried: Option<nat>, recorded: bool)

  datatype Reason = Late | Straddled | Overrun

  /** Money recorded on a month's reports that its own admission check did not cover. */
  datatype Excess = Excess(month: int, amount: nat, reason: Reason)

  datatype State = State(
    tables: Tables,
    workers: map<Worker, Phase>,
    lock: Option<Worker>,
    clock: Clock,
    cap: nat,
    calls: seq<Call>,      // history: every call that returned a report
    excess: seq<Excess>,   // history
    lost: set<nat>,        // calls whose charge was never recorded
    doubled: set<nat>)     // calls whose charge was recorded twice

  datatype Step =
    | Tick(clock: Clock)
    | Deliver(worker: Worker, event: int, kind: Option<Kind>, run: Option<int>, repository: int)
    | RetriggerRun(worker: Worker, about: int, asked: Kind, repository: int)
    | Schedule(worker: Worker, repository: int, asked: Kind, periodStart: int)
    | Recover(ids: seq<nat>, stale: set<nat>, slots: seq<Worker>)
    | Start(worker: Worker)
    | Project(worker: Worker, projected: nat)
    | Escape(worker: Worker)
    | Acquire(worker: Worker)
    | Check(worker: Worker)
    | CheckFails(worker: Worker)
    | Generate(worker: Worker, usage: Usage)
    | GenerateFails(worker: Worker)
    | Complete(worker: Worker)
    | Reject(worker: Worker)
    | FailInLock(worker: Worker)
    | FailInLockFails(worker: Worker)
    | Unlock(worker: Worker)
    | UnlockFails(worker: Worker)
    | LateFail(worker: Worker)
    | LateFailFails(worker: Worker)
    | LoseConnection(worker: Worker)
    | Crash(worker: Worker)

  function Init(cap: nat, clock: Clock): State {
    State(Tables([], []), map[], None, clock, cap, [], [], {}, {})
  }

  // ---- Money ----

  /** `monthly_spend`: what the reports requested in a month have cost so far. */
  function Spend(reports: seq<Report>, month: int): nat {
    if reports == [] then 0
    else
      var last := reports[|reports| - 1];
      Spend(reports[..|reports| - 1], month) + if last.month == month then last.usage.cost else 0
  }

  function Slack(excess: seq<Excess>, month: int): nat {
    if excess == [] then 0
    else
      var last := excess[|excess| - 1];
      Slack(excess[..|excess| - 1], month) + if last.month == month then last.amount else 0
  }

  function Times(n: nat, u: Usage): Usage {
    Usage(n * u.inputTokens, n * u.outputTokens, n * u.cost, n * u.latency)
  }

  lemma TimesSteps(n: nat, u: Usage)
    ensures Times(n + 1, u) == Add(Times(n, u), u)
    ensures Times(0, u) == Nothing() && Times(1, u) == u
    ensures Times(n, Nothing()) == Nothing()
  {}

  /** What one call has recorded on report r. */
  function Share(call: Call, r: nat): Usage {
    if call.report == r then Times(call.times, call.usage) else Nothing()
  }

  /** Everything the calls have recorded on report r, each as often as it was recorded. */
  function Charged(calls: seq<Call>, r: nat): Usage {
    if calls == [] then Nothing()
    else
      var last := calls[|calls| - 1];
      Add(Charged(calls[..|calls| - 1], r), Share(last, r))
  }

  /** What one charge recorded under the lock adds beyond its reservation. */
  function ExcessOf(call: Call, month: int): seq<Excess> {
    if call.month != month then [Excess(month, call.usage.cost, Straddled)]
    else if call.usage.cost > call.projected then [Excess(month, call.usage.cost - call.projected, Overrun)]
    else []
  }

  // ---- Transitions ----

  /** The call whose usage the task still carries. */
  function CallOf(p: Phase): Option<nat> {
    match p
    case Returned(_, call) => Some(call)
    case Failing(_, pending) => pending
    case Recorded(_, settled, _) => settled
    case Escaped(_, carried, _) => carried
    case _ => None
  }

  function TimesOf(p: Phase): nat {
    if p.Recorded? || (p.Escaped? && p.recorded) then 1 else 0
  }

  function Move(s: State, w: Worker, p: Phase): State {
    s.(workers := s.workers[w := p])
  }

  function Free(s: State, w: Worker): State {
    s.(lock := if s.lock == Some(w) then None else s.lock)
  }

  function Close(s: State, w: Worker): State {
    Free(s, w).(workers := s.workers - {w})
  }

  function StartTask(s: State, w: Worker, result: (Tables, Option<Claim>)): State {
    var t := s.(tables := result.0);
    if result.1.Some? then Move(t, w, Claimed(result.1.value)) else t
  }

  function RecoverAll(t: Tables, batch: seq<Claim>): Tables
    decreases |batch|
  {
    if batch == [] then t
    else RecoverAll(if ClaimOk(t, batch[0]) then RecoverClaim(t, batch[0]) else t, batch[1..])
  }

  function Batch(s: State, ids: seq<nat>): seq<Claim> {
    Limit(Join(s.tables, ids))
  }

  /** The tasks a recovery starts: one per recovered claim. */
  function RecoveredTasks(batch: seq<Claim>, slots: seq<Worker>): map<Worker, Phase>
    requires |slots| == |batch| && Distinct(slots)
  {
    map i | 0 <= i < |batch| :: slots[i] := Working(batch[i])
  }

  /** Records the carried usage (if any) on the claim's report, completing or failing it. */
  function Record(s: State, claim: Claim, carried: Option<nat>, complete: bool, late: bool): State
    requires ClaimOk(s.tables, claim) && (carried.Some? ==> carried.value < |s.calls|)
  {
    var usage := if carried.Some? then s.calls[carried.value].usage else Nothing();
    var tables := if complete then CompleteReport(s.tables, claim, usage) else FailReport(s.tables, claim, usage);
    if carried.None? then s.(tables := tables)
    else
      var call := s.calls[carried.value];
      var month := s.tables.reports[claim.report].month;
      s.(tables := tables,
         calls := s.calls[carried.value := call.(times := call.times + 1)],
         excess := s.excess + if late then [Excess(month, call.usage.cost, Late)] else ExcessOf(call, month))
  }

  ghost predicate Enabled(s: State, step: Step) {
    match step
    case Tick(_) => true
    case Deliver(w, _, _, _, _) => w !in s.workers
    case RetriggerRun(w, _, _, _) => w !in s.workers
    case Schedule(w, _, _, _) => w !in s.workers
    case Recover(ids, stale, slots) =>
      && Distinct(ids) && (forall i :: 0 <= i < |ids| ==> Recoverable(s.tables, ids[i], stale))
      && |slots| == |Batch(s, ids)| && Distinct(slots)
      && (forall i :: 0 <= i < |slots| ==> slots[i] !in s.workers)
    case Start(w) => w in s.workers && s.workers[w].Claimed?
    case Project(w, _) => w in s.workers && s.workers[w].Working?
    case Escape(w) => w in s.workers && (s.workers[w].Working? || s.workers[w].Waiting?)
    case Acquire(w) => w in s.workers && s.workers[w].Waiting? && s.lock.None?
    case Check(w) => w in s.workers && s.workers[w].Holding? && s.lock == Some(w)
    case CheckFails(w) => w in s.workers && s.workers[w].Holding?
    case Generate(w, _) => w in s.workers && s.workers[w].Admitted?
    case GenerateFails(w) => w in s.workers && s.workers[w].Admitted?
    case Complete(w) => w in s.workers && s.workers[w].Returned? && s.lock == Some(w)
    case Reject(w) => w in s.workers && s.workers[w].Returned?
    case FailInLock(w) => w in s.workers && s.workers[w].Failing? && s.lock == Some(w)
    case FailInLockFails(w) => w in s.workers && s.workers[w].Failing?
    case Unlock(w) => w in s.workers && s.workers[w].Recorded? && s.lock == Some(w)
    case UnlockFails(w) => w in s.workers && s.workers[w].Recorded?
    case LateFail(w) => w in s.workers && s.workers[w].Escaped?
    case LateFailFails(w) => w in s.workers && s.workers[w].Escaped?
    case LoseConnection(w) => s.lock == Some(w)
    case Crash(w) => w in s.workers
  }

  /** Forgets a task; a charge it carried and never recorded is lost. */
  function Drop(s: State, w: Worker): State
    requires w in s.workers
  {
    var p := s.workers[w];
    Close(s, w).(lost := if CallOf(p).Some? && TimesOf(p) == 0 then s.lost + {CallOf(p).value} else s.lost)
  }

  ghost predicate IsIntake(step: Step) {
    step.Tick? || step.Deliver? || step.RetriggerRun? || step.Schedule? || step.Recover? || step.Start?
  }

  /** Claims: transactions that hand out work but move no money. */
  ghost function Intake(s: State, step: Step): State
    requires PhasesOk(s) && Enabled(s, step) && IsIntake(step)
  {
    match step
    case Tick(clock) => s.(clock := clock)
    case Deliver(w, event, kind, run, repository) =>
      StartTask(s, w, ClaimEvent(s.tables, event, kind, run, repository, s.clock))
    case RetriggerRun(w, run, kind, repository) => StartTask(s, w, Retrigger(s.tables, run, kind, repository, s.clock))
    case Schedule(w, repository, kind, start) =>
      StartTask(s, w, ClaimScheduled(s.tables, repository, kind, start, s.clock))
    case Recover(ids, _, slots) =>
      s.(tables := RecoverAll(s.tables, Batch(s, ids)), workers := s.workers + RecoveredTasks(Batch(s, ids), slots))
    case Start(w) =>
      var c := s.workers[w].claim;
      Move(s, w, Working(c)).(tables := MarkProcessing(s.tables, c))
  }

  ghost predicate IsQuiet(step: Step) {
    step.Project? || step.Escape? || step.Acquire? || step.Check? || step.CheckFails? || step.GenerateFails?
    || step.Reject? || step.FailInLockFails? || step.LoseConnection?
  }

  /** Steps of one task that write nothing. */
  ghost function Quiet(s: State, step: Step): State
    requires PhasesOk(s) && Enabled(s, step) && IsQuiet(step)
  {
    var p := s.workers[step.worker];
    match step
    case Project(w, projected) => Move(s, w, Waiting(p.claim, projected))
    case Escape(w) => Move(s, w, Escaped(p.claim, None, false))
    case Acquire(w) => Move(s, w, Holding(p.claim, p.projected)).(lock := Some(w))
    case Check(w) =>
      if Spend(s.tables.reports, s.clock.month) + p.projected > s.cap then Move(s, w, Failing(p.claim, None))
      else Move(s, w, Admitted(p.claim, p.projected, s.clock.month))
    case CheckFails(w) => Move(s, w, Failing(p.claim, None))
    case GenerateFails(w) => Move(s, w, Failing(p.claim, None))
    case Reject(w) => Move(s, w, Failing(p.claim, Some(p.call)))
    case FailInLockFails(w) => Free(Move(s, w, Escaped(p.claim, p.pending, false)), w)
    case LoseConnection(w) => Free(s, w)
  }

  ghost function Apply(s: State, step: Step): State
    requires PhasesOk(s) && Enabled(s, step)
  {
    if IsIntake(step) then Intake(s, step)
    else if IsQuiet(step) then Quiet(s, step)
    else
      var p := s.workers[step.worker];
      match step
      case Generate(w, usage) =>
        Move(s, w, Returned(p.claim, |s.calls|))
          .(calls := s.calls + [Call(p.claim.report, usage, p.month, p.projected, 0)])
      case Complete(w) =>
        Move(Record(s, p.claim, Some(p.call), true, false), w, Recorded(p.claim, Some(p.call), true))
      case FailInLock(w) =>
        Move(Record(s, p.claim, p.pending, false, false), w, Recorded(p.claim, p.pending, false))
      case Unlock(w) => Close(s, w)
      case UnlockFails(w) =>
        if p.committed then Close(s, w) else Free(Move(s, w, Escaped(p.claim, p.settled, true)), w)
      case LateFail(w) =>
        Close(Record(s, p.claim, p.carried, false, true), w)
          .(doubled := if p.carried.Some? && p.recorded then s.doubled + {p.carried.value} else s.doubled)
      case LateFailFails(w) => Drop(s, w)
      case Crash(w) => Drop(s, w)
  }

  // ---- Invariants ----

  ghost predicate PhaseOk(s: State, p: Phase) {
    && ClaimOk(s.tables, p.claim)
    && (CallOf(p).Some? ==>
          var c := CallOf(p).value;
          && c < |s.calls| && s.calls[c].report == p.claim.report && s.calls[c].times == TimesOf(p)
          && c !in s.lost && c !in s.doubled)
  }

  ghost predicate PhasesOk(s: State) {
    && (forall w :: w in s.workers ==> PhaseOk(s, s.workers[w]))
    && (forall v, w :: v in s.workers && w in s.workers && v != w && CallOf(s.workers[v]).Some? ==>
          CallOf(s.workers[v]) != CallOf(s.workers[w]))
    && (s.lock.Some? ==> s.lock.value in s.workers)
  }

  ghost predicate Held(s: State, c: nat) {
    exists w :: w in s.workers && CallOf(s.workers[w]) == Some(c)
  }

  /** How often a call that no task carries any more has been recorded. */
  ghost predicate Settled(s: State, c: nat)
    requires c < |s.calls|
  {
    s.calls[c].times == if c in s.lost then 0 else if c in s.doubled then 2 else 1
  }

  ghost predicate CallsOk(s: State) {
    && (forall c :: 0 <= c < |s.calls| ==> s.calls[c].report < |s.tables.reports|)
    && (forall c :: 0 <= c < |s.calls| && !Held(s, c) ==> Settled(s, c))
    && (forall c :: c in s.lost || c in s.doubled ==> c < |s.calls|)
    && s.lost !! s.doubled
  }

  /** Stored usage is exactly what the calls recorded. */
  ghost predicate UsageConserved(s: State) {
    forall r :: 0 <= r < |s.tables.reports| ==> s.tables.reports[r].usage == Charged(s.calls, r)
  }

  ghost predicate Covered(s: State, month: int, reserve: nat) {
    Spend(s.tables.reports, month) + reserve <= s.cap + Slack(s.excess, month)
  }

  /** A task that was admitted and has not recorded its charge still has room for it. */
  ghost predicate PhaseCovered(s: State, p: Phase)
    requires PhaseOk(s, p)
  {
    && (p.Admitted? ==> Covered(s, p.month, p.projected))
    && ((p.Returned? || p.Failing?) && CallOf(p).Some? ==>
          var call := s.calls[CallOf(p).value]; Covered(s, call.month, call.projected))
  }

  /** The lock holder's reservation fits under the cap until it is recorded. */
  ghost predicate HolderCovered(s: State)
    requires PhasesOk(s)
  {
    s.lock.Some? ==> PhaseCovered(s, s.workers[s.lock.value])
  }

  ghost predicate BudgetOk(s: State)
    requires PhasesOk(s)
  {
    HolderCovered(s) && forall m :: Covered(s, m, 0)
  }

  ghost predicate Inv(s: State) {
    Integrity(s.tables) && PhasesOk(s) && CallsOk(s) && UsageConserved(s) && BudgetOk(s)
  }

  // ---- Sums ----

  /** Same months and usage on the old rows, nothing on the new ones. */
  ghost predicate SameMoney(rs: seq<Report>, rs': seq<Report>) {
    && |rs| <= |rs'|
    && (forall i :: 0 <= i < |rs| ==> rs'[i].usage == rs[i].usage && rs'[i].month == rs[i].month)
    && (forall i :: |rs| <= i < |rs'| ==> rs'[i].usage == Nothing())
  }

  lemma {:induction false} SpendSame(rs: seq<Report>, rs': seq<Report>, m: int)
    requires SameMoney(rs, rs')
    ensures Spend(rs', m) == Spend(rs, m)
    decreases |rs'|
  {
    if rs' != [] {
      var init := rs'[..|rs'| - 1];
      if |rs'| > |rs| { SpendSame(rs, init, m); } else { SpendSame(rs[..|rs| - 1], init, m); }
    }
  }

  /** Adding to one report's cost adds to its month alone. */
  lemma {:induction false} SpendUpdate(rs: seq<Report>, i: nat, r': Report, m: int)
    requires i < |rs| && r'.month == rs[i].month
    ensures Spend(rs[i := r'], m) + (if r'.month == m then rs[i].usage.cost else 0)
            == Spend(rs, m) + (if r'.month == m then r'.usage.cost else 0)
    decreases |rs|
  {
    var n := |rs| - 1;
    if i == n {
      assert rs[i := r'][..n] == rs[..n];
    } else {
      SpendUpdate(rs[..n], i, r', m);
      assert rs[i := r'][..n] == rs[..n][i := r'];
    }
  }

  lemma {:induction false} SlackAppend(a: seq<Excess>, b: seq<Excess>, m: int)
    ensures Slack(a + b, m) == Slack(a, m) + Slack(b, m)
    decreases |b|
  {
    if b == [] {
      assert a + b == a;
    } else {
      SlackAppend(a, b[..|b| - 1], m);
      assert (a + b)[..|a + b| - 1] == a + b[..|b| - 1];
    }
  }

  lemma {:induction false} ChargedUpdate(calls: seq<Call>, c: nat, r: nat)
    requires c < |calls|
    ensures var again := calls[c].(times := calls[c].times + 1);
            Charged(calls[c := again], r)
            == if calls[c].report == r then Add(Charged(calls, r), calls[c].usage) else Charged(calls, r)
    decreases |calls|
  {
    var n := |calls| - 1;
    var again := calls[c].(times := calls[c].times + 1);
    TimesSteps(calls[c].times, calls[c].usage);
    if c == n {
      assert calls[c := again][..n] == calls[..n];
    } else {
      ChargedUpdate(calls[..n], c, r);
      assert calls[c := again][..n] == calls[..n][c := again];
    }
  }

  lemma {:induction false} ChargedNothing(calls: seq<Call>, r: nat)
    requires forall c :: 0 <= c < |calls| ==> calls[c].report != r
    ensures Charged(calls, r) == Nothing()
    decreases |calls|
  {
    if calls != [] {
      ChargedNothing(calls[..|calls| - 1], r);
      assert Share(calls[|calls| - 1], r) == Nothing();
    }
  }
}
