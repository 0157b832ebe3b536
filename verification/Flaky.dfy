/**
 * Flaky tests: the summary query as a function of the window's test results, and the upsert and
 * reset that store its verdicts.
 */
module Flaky {
  import opened Basics
  import opened Wrappers
  import opened Rates

  datatype Status = Passed | Failed | Error | Skipped

  /** A `test_results` row; `id` is its primary key. */
  datatype TestResult = TestResult(id: int, repository: int, test: int, run: int, status: Status, at: int)

  /** The columns of `workflow_runs` the query joins. */
  datatype RunRow = RunRow(workflow: Option<int>, githubRun: int, sha: int)

  datatype WorkflowKey = Workflow(id: int) | LoneRun(githubRun: int)

  datatype Partition = Partition(workflow: WorkflowKey, sha: int)

  /** What one run says about one test: `ordered`, the per-run rows that are not skipped. */
  datatype Observation = Observation(run: int, partition: Partition, at: int, passed: bool)

  function PartitionOf(row: RunRow): Partition {
    Partition(if row.workflow.Some? then Workflow(row.workflow.value) else LoneRun(row.githubRun), row.sha)
  }

  // ---- One run's rows collapse to one observation ----

  lemma HasElement(s: set<int>)
    ensures s == {} || exists y :: y in s
  {
    if forall y :: y !in s { assert s == {}; }
  }

  predicate IsMax(s: set<int>, m: int) {
    m in s && forall x :: x in s ==> x <= m
  }

  predicate IsMin(s: set<int>, m: int) {
    m in s && forall x :: x in s ==> m <= x
  }

  lemma {:induction false} MaxExists(s: set<int>)
    requires s != {}
    ensures exists m :: IsMax(s, m)
    decreases |s|
  {
    HasElement(s);
    var y :| y in s;
    var rest := s - {y};
    assert forall x :: x in s ==> x in rest || x == y;
    if rest != {} {
      MaxExists(rest);
      var m :| IsMax(rest, m);
      assert IsMax(s, if m < y then y else m);
    } else {
      assert IsMax(s, y);
    }
  }

  function MaxOf(s: set<int>): (m: int)
    requires s != {}
    ensures IsMax(s, m)
  {
    MaxExists(s);
    var m :| m in s && IsMax(s, m);
    m
  }

  function Latest(s: set<int>): (m: Option<int>)
    ensures m.Some? <==> s != {}
    ensures m.Some? ==> IsMax(s, m.value)
  {
    if s == {} then None else Some(MaxOf(s))
  }

  lemma {:induction false} MinExists(s: set<int>)
    requires s != {}
    ensures exists m :: IsMin(s, m)
    decreases |s|
  {
    HasElement(s);
    var y :| y in s;
    var rest := s - {y};
    assert forall x :: x in s ==> x in rest || x == y;
    if rest != {} {
      MinExists(rest);
      var m :| IsMin(rest, m);
      assert IsMin(s, if y < m then y else m);
    } else {
      assert IsMin(s, y);
    }
  }

  function Earliest(s: set<int>): (m: Option<int>)
    ensures m.Some? <==> s != {}
    ensures m.Some? ==> IsMin(s, m.value)
  {
    if s == {} then None
    else
      MinExists(s);
      var m :| m in s && IsMin(s, m);
      Some(m)
  }

  /** The rows the query reads: one repository, both ends of the window included. */
  function Window(results: set<TestResult>, repository: int, from: int, until: int): set<TestResult> {
    set r | r in results && r.repository == repository && from <= r.at <= until
  }

  function GroupOf(rows: set<TestResult>, test: int, run: int): set<TestResult> {
    set r | r in rows && r.test == test && r.run == run
  }

  predicate AnyFailed(g: set<TestResult>) {
    exists r :: r in g && (r.status == Failed || r.status == Error)
  }

  predicate AnyPassed(g: set<TestResult>) {
    exists r :: r in g && r.status == Passed
  }

  /** The CASE of `per_run`: a failure outweighs a pass, a pass outweighs a skip. */
  function Outcome(g: set<TestResult>): Status {
    if AnyFailed(g) then Failed else if AnyPassed(g) then Passed else Skipped
  }

  function RunsOf(rows: set<TestResult>, test: int): set<int> {
    set r | r in rows && r.test == test :: r.run
  }

  /** Results refer to stored runs (a foreign key). */
  predicate Linked(rows: set<TestResult>, runs: map<int, RunRow>) {
    forall r :: r in rows ==> r.run in runs
  }

  function Times(g: set<TestResult>): set<int> {
    set r | r in g :: r.at
  }

  function Observe(rows: set<TestResult>, runs: map<int, RunRow>, test: int, run: int): Observation
    requires run in RunsOf(rows, test) && run in runs
  {
    var g := GroupOf(rows, test, run);
    assert Times(g) != {} by {
      var r :| r in rows && r.test == test && r.run == run;
      assert r in g && r.at in Times(g);
    }
    Observation(run, PartitionOf(runs[run]), MaxOf(Times(g)), Outcome(g) == Passed)
  }

  function Observations(rows: set<TestResult>, runs: map<int, RunRow>, test: int): set<Observation>
    requires Linked(rows, runs)
  {
    set run | run in RunsOf(rows, test) && Outcome(GroupOf(rows, test, run)) != Skipped ::
      Observe(rows, runs, test, run)
  }

  predicate Counted(r: TestResult) {
    r.status != Skipped
  }

  /** The summary query has a line for a test exactly if the reset's NOT EXISTS spares it. */
  lemma SummaryMeetsReset(rows: set<TestResult>, runs: map<int, RunRow>, test: int)
    requires Linked(rows, runs)
    ensures Observations(rows, runs, test) != {} <==> exists r :: r in rows && r.test == test && Counted(r)
  {
    if r :| r in rows && r.test == test && Counted(r) {
      assert r in GroupOf(rows, test, r.run) && r.run in RunsOf(rows, test);
      assert Observe(rows, runs, test, r.run) in Observations(rows, runs, test);
    }
    if o :| o in Observations(rows, runs, test) {
      var run :| run in RunsOf(rows, test) && Outcome(GroupOf(rows, test, run)) != Skipped;
      var g := GroupOf(rows, test, run);
      var r :| r in g && Counted(r);
      assert r in rows && r.test == test;
    }
  }

  // ---- lag ----

  predicate DistinctRuns(obs: set<Observation>) {
    forall o, q :: o in obs && q in obs && o.run == q.run ==> o == q
  }

  predicate Before(o: Observation, q: Observation) {
    o.partition == q.partition && (o.at < q.at || (o.at == q.at && o.run < q.run))
  }

  predicate Between(o: Observation, x: Observation, q: Observation) {
    Before(o, x) && Before(x, q)
  }

  /** p is the row lag() reads for o: the last one before it in its partition. */
  predicate IsPrevious(p: Observation, o: Observation, obs: set<Observation>) {
    p in obs && Before(p, o) && forall x :: x in obs ==> !Between(p, x, o)
  }

  predicate HasPrevious(o: Observation, obs: set<Observation>) {
    exists p :: p in obs && IsPrevious(p, o, obs)
  }

  predicate Flips(o: Observation, obs: set<Observation>) {
    exists p :: p in obs && IsPrevious(p, o, obs) && p.passed != o.passed
  }

  function FlipSet(obs: set<Observation>): set<Observation> {
    set o | o in obs && Flips(o, obs)
  }

  function TransitionSet(obs: set<Observation>): set<Observation> {
    set o | o in obs && HasPrevious(o, obs)
  }

  function Partitions(obs: set<Observation>): set<Partition> {
    set o | o in obs :: o.partition
  }

  function Side(obs: set<Observation>, passed: bool): set<Observation> {
    set o | o in obs && o.passed == passed
  }

  /** Among the rows before o in a set there is a last one. */
  lemma {:induction false} LastBefore(o: Observation, some: set<Observation>)
    requires DistinctRuns(some) && exists x :: x in some && Before(x, o)
    ensures exists p :: p in some && IsPrevious(p, o, some)
    decreases |some|
  {
    var y :| y in some && Before(y, o);
    var rest := some - {y};
    if exists x :: x in rest && Before(x, o) {
      LastBefore(o, rest);
      var p :| p in rest && IsPrevious(p, o, rest);
      LaterOfTwo(o, some, p, y);
    } else {
      forall x | x in some ensures !Between(y, x, o) { assert x == y || x in rest; }
      assert IsPrevious(y, o, some);
    }
  }

  /** Of the last one without y, and y, the later is the last one. */
  lemma LaterOfTwo(o: Observation, some: set<Observation>, p: Observation, y: Observation)
    requires y in some && Before(y, o) && p in some && IsPrevious(p, o, some - {y})
    ensures IsPrevious(if Before(p, y) then y else p, o, some)
  {
    var last := if Before(p, y) then y else p;
    forall x | x in some ensures !Between(last, x, o) {
      assert x == y || (x in some - {y} && !Between(p, x, o));
    }
  }

  // ---- A test is flaky iff some commit both passed and failed ----

  predicate Mixed(obs: set<Observation>) {
    exists o, q :: o in obs && q in obs && o.partition == q.partition && o.passed && !q.passed
  }

  function Earlier(o: Observation, obs: set<Observation>): set<Observation> {
    set x | x in obs && Before(x, o)
  }

  /** Somewhere from x up to a later y with another outcome, the outcome flips. */
  lemma {:induction false} FlipBetween(x: Observation, y: Observation, obs: set<Observation>)
    requires DistinctRuns(obs) && x in obs && y in obs && Before(x, y) && x.passed != y.passed
    ensures FlipSet(obs) != {}
    decreases |Earlier(y, obs)|
  {
    LastBefore(y, obs);
    var p :| p in obs && IsPrevious(p, y, obs);
    if p.passed != y.passed {
      assert y in FlipSet(obs);
    } else {
      assert !Between(p, x, y);
      assert p in Earlier(y, obs) && p !in Earlier(p, obs) && Earlier(p, obs) <= Earlier(y, obs);
      SmallerSet(Earlier(p, obs), Earlier(y, obs), p);
      FlipBetween(x, p, obs);
    }
  }

  lemma FlakyIffMixed(obs: set<Observation>)
    requires DistinctRuns(obs)
    ensures |FlipSet(obs)| > 0 <==> Mixed(obs)
  {
    if o :| o in FlipSet(obs) {
      var p :| p in obs && IsPrevious(p, o, obs) && p.passed != o.passed;
      assert if o.passed then o.passed && !p.passed else p.passed && !o.passed;
    }
    if o, q :| o in obs && q in obs && o.partition == q.partition && o.passed && !q.passed {
      if Before(o, q) { FlipBetween(o, q, obs); } else { FlipBetween(q, o, obs); }
    }
  }

  // ---- Transitions = observations - partitions ----

  function Firsts(obs: set<Observation>): set<Observation> {
    set o | o in obs && !HasPrevious(o, obs)
  }

  /** A row without a predecessor comes before every other row of its partition. */
  lemma FirstIsLeast(o: Observation, q: Observation, obs: set<Observation>)
    requires DistinctRuns(obs) && o in Firsts(obs) && q in obs && o.partition == q.partition
    ensures o == q || Before(o, q)
  {
    if Before(q, o) { LastBefore(o, obs); }
  }

  /** Every partition has a first row. */
  lemma {:induction false} EveryPartitionHasAFirst(o: Observation, obs: set<Observation>)
    requires DistinctRuns(obs) && o in obs
    ensures exists f :: f in Firsts(obs) && f.partition == o.partition
    decreases |Earlier(o, obs)|
  {
    if HasPrevious(o, obs) {
      var p :| p in obs && IsPrevious(p, o, obs);
      assert p in Earlier(o, obs) && p !in Earlier(p, obs) && Earlier(p, obs) <= Earlier(o, obs);
      SmallerSet(Earlier(p, obs), Earlier(o, obs), p);
      EveryPartitionHasAFirst(p, obs);
    } else {
      assert o in Firsts(obs);
    }
  }

  predicate OnePerPartition(some: set<Observation>) {
    forall o, q :: o in some && q in some && o.partition == q.partition ==> o == q
  }

  lemma {:induction false} OnePerPartitionSize(some: set<Observation>)
    requires OnePerPartition(some)
    ensures |Partitions(some)| == |some|
    decreases |some|
  {
    if o :| o in some {
      var rest := some - {o};
      OnePerPartitionSize(rest);
      assert Partitions(some) == Partitions(rest) + {o.partition};
    }
  }

  lemma TransitionsAreRunsMinusPartitions(obs: set<Observation>)
    requires DistinctRuns(obs)
    ensures |TransitionSet(obs)| == |obs| - |Partitions(obs)|
  {
    forall o, q | o in Firsts(obs) && q in Firsts(obs) && o.partition == q.partition ensures o == q {
      FirstIsLeast(o, q, obs);
      FirstIsLeast(q, o, obs);
    }
    OnePerPartitionSize(Firsts(obs));
    forall p | p in Partitions(obs) ensures p in Partitions(Firsts(obs)) {
      var o :| o in obs && o.partition == p;
      EveryPartitionHasAFirst(o, obs);
    }
    assert Partitions(Firsts(obs)) == Partitions(obs);
    assert obs == TransitionSet(obs) + Firsts(obs) && TransitionSet(obs) !! Firsts(obs);
  }

  // ---- flips <= 2 * min(passed, failed) ----

  /** Different rows have different predecessors, so rows cannot outnumber theirs. */
  lemma {:induction false} PredecessorsSuffice(some: set<Observation>, from: set<Observation>, obs: set<Observation>)
    requires DistinctRuns(obs) && some <= obs
    requires forall o :: o in some ==> exists p :: p in from && IsPrevious(p, o, obs)
    ensures |some| <= |from|
    decreases |some|
  {
    if o :| o in some {
      var p :| p in from && IsPrevious(p, o, obs);
      forall q | q in some - {o} ensures exists r :: r in from - {p} && IsPrevious(r, q, obs) {
        var r :| r in from && IsPrevious(r, q, obs);
        assert r in from - {p};
      }
      PredecessorsSuffice(some - {o}, from - {p}, obs);
    }
  }

  function FlipsTo(obs: set<Observation>, passed: bool): set<Observation> {
    set o | o in FlipSet(obs) && o.passed == passed
  }

  lemma FlipsToBound(obs: set<Observation>, passed: bool)
    requires DistinctRuns(obs)
    ensures |FlipsTo(obs, passed)| <= |Side(obs, passed)| && |FlipsTo(obs, passed)| <= |Side(obs, !passed)|
  {
    SubsetSize(FlipsTo(obs, passed), Side(obs, passed));
    forall o | o in FlipsTo(obs, passed) ensures exists p :: p in Side(obs, !passed) && IsPrevious(p, o, obs) {
      var p :| p in obs && IsPrevious(p, o, obs) && p.passed != o.passed;
      assert p in Side(obs, !passed);
    }
    PredecessorsSuffice(FlipsTo(obs, passed), Side(obs, !passed), obs);
  }

  lemma FlipsAreBounded(obs: set<Observation>)
    requires DistinctRuns(obs)
    ensures |FlipSet(obs)| <= 2 * |Side(obs, true)| && |FlipSet(obs)| <= 2 * |Side(obs, false)|
    ensures |FlipSet(obs)| <= |TransitionSet(obs)|
    ensures |Side(obs, true)| + |Side(obs, false)| == |obs|
  {
    FlipsToBound(obs, true);
    FlipsToBound(obs, false);
    assert FlipSet(obs) == FlipsTo(obs, true) + FlipsTo(obs, false) && FlipsTo(obs, true) !! FlipsTo(obs, false);
    assert obs == Side(obs, true) + Side(obs, false) && Side(obs, true) !! Side(obs, false);
    SubsetSize(FlipSet(obs), TransitionSet(obs));
  }

  // ---- Verdicts ----

  /** The counts and the verdict stored for a test. */
  datatype Verdict = Verdict(total: nat, passed: nat, failed: nat, flips: nat, rate: nat, flaky: bool)

  function Rate(flips: nat, transitions: nat): nat {
    if transitions == 0 then 0 else HalfUp4(flips, transitions)
  }

  function VerdictOn(obs: set<Observation>): Verdict {
    Verdict(|obs|, |Side(obs, true)|, |Side(obs, false)|, |FlipSet(obs)|,
            Rate(|FlipSet(obs)|, |TransitionSet(obs)|), |FlipSet(obs)| > 0)
  }

  function VerdictOf(rows: set<TestResult>, runs: map<int, RunRow>, test: int): Verdict
    requires Linked(rows, runs)
  {
    VerdictOn(Observations(rows, runs, test))
  }

  /** Two runs of the test, of one workflow on one commit, of which one passed and the other failed. */
  predicate Disagree(rows: set<TestResult>, runs: map<int, RunRow>, test: int, a: int, b: int)
    requires Linked(rows, runs)
  {
    && a in RunsOf(rows, test) && b in RunsOf(rows, test)
    && PartitionOf(runs[a]) == PartitionOf(runs[b])
    && Outcome(GroupOf(rows, test, a)) == Passed && Outcome(GroupOf(rows, test, b)) == Failed
  }

  lemma MixedMeansDisagreement(rows: set<TestResult>, runs: map<int, RunRow>, test: int)
    requires Linked(rows, runs)
    ensures Mixed(Observations(rows, runs, test))
            <==> exists a, b :: a in RunsOf(rows, test) && b in RunsOf(rows, test) && Disagree(rows, runs, test, a, b)
  {
    var obs := Observations(rows, runs, test);
    if a, b :| a in RunsOf(rows, test) && b in RunsOf(rows, test) && Disagree(rows, runs, test, a, b) {
      var o, q := Observe(rows, runs, test, a), Observe(rows, runs, test, b);
      assert o in obs && q in obs;
    }
    if o, q :| o in obs && q in obs && o.partition == q.partition && o.passed && !q.passed {
      assert Disagree(rows, runs, test, o.run, q.run);
    }
  }

  /** What a stored verdict means in terms of the window's results alone. */
  lemma VerdictIsCharacterised(rows: set<TestResult>, runs: map<int, RunRow>, test: int)
    requires Linked(rows, runs)
    ensures var v := VerdictOf(rows, runs, test);
            && (v.flaky <==>
                exists a, b :: a in RunsOf(rows, test) && b in RunsOf(rows, test) && Disagree(rows, runs, test, a, b))
            && v.flips <= 2 * v.passed && v.flips <= 2 * v.failed
            && v.total == v.passed + v.failed
            && 0 <= v.rate <= 10000
  {
    var obs := Observations(rows, runs, test);
    FlakyIffMixed(obs);
    MixedMeansDisagreement(rows, runs, test);
    FlipsAreBounded(obs);
    if |TransitionSet(obs)| > 0 { RateIsAFraction(|FlipSet(obs)|, |TransitionSet(obs)|); }
  }

  // ---- The table ----

  datatype Key = Key(repository: int, test: int)

  datatype Row = Row(
    verdict: Verdict, windowDays: nat, firstSeen: Option<int>, lastSeen: Option<int>, lastFailed: Option<int>,
    quarantined: bool)

  function Instants(obs: set<Observation>): set<int> {
    set o | o in obs :: o.at
  }

  /** The tests the summary query has a line for. */
  function Summarized(rows: set<TestResult>, runs: map<int, RunRow>): set<int>
    requires Linked(rows, runs)
  {
    set r | r in rows && Observations(rows, runs, r.test) != {} :: r.test
  }

  function Silenced(row: Row): Row {
    row.(verdict := Silent())
  }

  lemma SummarizedMeansCounted(rows: set<TestResult>, runs: map<int, RunRow>, test: int)
    requires Linked(rows, runs)
    ensures test in Summarized(rows, runs) <==> exists r :: r in rows && r.test == test && Counted(r)
    ensures test in Summarized(rows, runs) <==> Observations(rows, runs, test) != {}
  {
    SummaryMeetsReset(rows, runs, test);
  }

  /** The EXISTS of the reset. */
  predicate Spared(window: set<TestResult>, test: int) {
    exists r :: r in window && r.test == test && Counted(r)
  }

  /** The summary query's lines, by test. */
  function Summaries(window: set<TestResult>, runs: map<int, RunRow>): (lines: map<int, set<Observation>>)
    requires Linked(window, runs)
    ensures lines.Keys == Summarized(window, runs)
  {
    map test | test in Summarized(window, runs) :: Observations(window, runs, test)
  }

  /** The columns of a row that an upsert writes; the quarantine flag of an existing row stays. */
  predicate UpsertedRow(before: map<Key, Row>, key: Key, row: Row, obs: set<Observation>) {
    && row.verdict == VerdictOn(obs) && row.quarantined == (key in before && before[key].quarantined)
    && row.firstSeen == Earliest(Instants(obs)) && row.lastSeen == Latest(Instants(obs))
    && row.lastFailed == Latest(Instants(Side(obs, false)))
  }

  predicate IsDone(key: Key, repository: int, done: set<int>) {
    key.repository == repository && key.test in done
  }

  /** One key after upserting the summaries of the tests in `done`. */
  ghost predicate UpsertedKey(
    before: map<Key, Row>, after: map<Key, Row>, repository: int, summaries: map<int, set<Observation>>,
    done: set<int>, key: Key) {
    && (key in after <==> key in before || IsDone(key, repository, done))
    && (key in after ==>
          if IsDone(key, repository, done)
          then key.test in summaries && UpsertedRow(before, key, after[key], summaries[key.test])
          else after[key] == before[key])
  }

  ghost predicate Upserted(
    before: map<Key, Row>, after: map<Key, Row>, repository: int, summaries: map<int, set<Observation>>,
    done: set<int>) {
    forall key: Key {:trigger UpsertedKey(before, after, repository, summaries, done, key)} ::
      UpsertedKey(before, after, repository, summaries, done, key)
  }

  lemma UpsertedOneMore(
    before: map<Key, Row>, mid: map<Key, Row>, after: map<Key, Row>, repository: int,
    summaries: map<int, set<Observation>>, done: set<int>, test: int)
    requires Upserted(before, mid, repository, summaries, done) && test in summaries && test !in done
    requires var key := Key(repository, test);
             key in after && after == mid[key := after[key]] && UpsertedRow(mid, key, after[key], summaries[test])
    ensures Upserted(before, after, repository, summaries, done + {test})
  {
    assert UpsertedKey(before, mid, repository, summaries, done, Key(repository, test));
    forall key: Key ensures UpsertedKey(before, after, repository, summaries, done + {test}, key) {
      assert UpsertedKey(before, mid, repository, summaries, done, key);
    }
  }

  /** One key after the reset. */
  predicate ResetKey(
    before: map<Key, Row>, after: map<Key, Row>, repository: int, window: set<TestResult>, key: Key) {
    && (key in after <==> key in before)
    && (key in after ==>
          after[key] == if key.repository == repository && !Spared(window, key.test)
                        then Silenced(before[key]) else before[key])
  }

  ghost predicate WasReset(before: map<Key, Row>, after: map<Key, Row>, repository: int, window: set<TestResult>) {
    forall key: Key {:trigger ResetKey(before, after, repository, window, key)} ::
      ResetKey(before, after, repository, window, key)
  }

  function Silent(): Verdict {
    Verdict(0, 0, 0, 0, 0, false)
  }

  /**
   * The tables around the upserts and the reset of one recompute. Each statement sees what is committed
   * when it starts, so the reset may see other results than the summary query did.
   */
  ghost predicate Recomputes(
    before: map<Key, Row>, mid: map<Key, Row>, after: map<Key, Row>, repository: int,
    queried: set<TestResult>, later: set<TestResult>, runs: map<int, RunRow>)
    requires Linked(queried, runs)
  {
    && Upserted(before, mid, repository, Summaries(queried, runs), Summarized(queried, runs))
    && WasReset(mid, after, repository, later)
  }

  /** What a recompute leaves of one test: nothing of the old row, but for a test only the reset has seen. */
  ghost predicate Recomputed(
    before: map<Key, Row>, after: map<Key, Row>, key: Key,
    queried: set<TestResult>, later: set<TestResult>, runs: map<int, RunRow>)
    requires Linked(queried, runs)
  {
    && (key in after <==> key in before || Spared(queried, key.test))
    && (key in after ==>
          if !Spared(later, key.test) then after[key].verdict == Verdict(0, 0, 0, 0, 0, false)
          else if Spared(queried, key.test) then after[key].verdict == VerdictOf(queried, runs, key.test)
          else key in before && after[key] == before[key])
    && (key in after && Spared(queried, key.test) ==>
          var obs := Observations(queried, runs, key.test);
          UpsertedRow(before, key, after[key].(verdict := VerdictOn(obs)), obs))
    && (key in before && !Spared(queried, key.test) ==>
          key in after && after[key] == before[key].(verdict := after[key].verdict))
  }

  ghost predicate AllRecomputed(
    before: map<Key, Row>, after: map<Key, Row>, repository: int,
    queried: set<TestResult>, later: set<TestResult>, runs: map<int, RunRow>)
    requires Linked(queried, runs)
  {
    forall test {:trigger Recomputed(before, after, Key(repository, test), queried, later, runs)} ::
      Recomputed(before, after, Key(repository, test), queried, later, runs)
  }

  /** Other repositories keep their rows, and every row keeps its quarantine flag. */
  ghost predicate LeavesOthers(before: map<Key, Row>, after: map<Key, Row>, repository: int) {
    forall key {:trigger LeavesKey(before, after, repository, key)} :: LeavesKey(before, after, repository, key)
  }

  predicate LeavesKey(before: map<Key, Row>, after: map<Key, Row>, repository: int, key: Key) {
    && (key in before ==> key in after && after[key].quarantined == before[key].quarantined)
    && (key.repository != repository ==>
          (key in after <==> key in before) && (key in after ==> after[key] == before[key]))
  }

  lemma RecomputeLeavesOthers(
    before: map<Key, Row>, mid: map<Key, Row>, after: map<Key, Row>, repository: int,
    queried: set<TestResult>, later: set<TestResult>, runs: map<int, RunRow>)
    requires Linked(queried, runs) && Recomputes(before, mid, after, repository, queried, later, runs)
    ensures LeavesOthers(before, after, repository)
  {
    forall key: Key ensures LeavesKey(before, after, repository, key) {
      assert UpsertedKey(before, mid, repository, Summaries(queried, runs), Summarized(queried, runs), key);
      assert ResetKey(mid, after, repository, later, key);
    }
  }

  lemma RecomputedRow(
    before: map<Key, Row>, mid: map<Key, Row>, after: map<Key, Row>, repository: int,
    queried: set<TestResult>, later: set<TestResult>, runs: map<int, RunRow>, test: int)
    requires Linked(queried, runs) && Recomputes(before, mid, after, repository, queried, later, runs)
    ensures Recomputed(before, after, Key(repository, test), queried, later, runs)
  {
    SummarizedMeansCounted(queried, runs, test);
    var key := Key(repository, test);
    assert UpsertedKey(before, mid, repository, Summaries(queried, runs), Summarized(queried, runs), key);
    assert ResetKey(mid, after, repository, later, key);
    if Spared(queried, test) {
      assert Summaries(queried, runs)[test] == Observations(queried, runs, test);
    }
  }

  lemma RecomputedRows(
    before: map<Key, Row>, mid: map<Key, Row>, after: map<Key, Row>, repository: int,
    queried: set<TestResult>, later: set<TestResult>, runs: map<int, RunRow>)
    requires Linked(queried, runs) && Recomputes(before, mid, after, repository, queried, later, runs)
    ensures AllRecomputed(before, after, repository, queried, later, runs)
  {
    forall test ensures Recomputed(before, after, Key(repository, test), queried, later, runs) {
      RecomputedRow(before, mid, after, repository, queried, later, runs, test);
    }
  }

  /** The stored verdicts of the repository are those of the results the query saw. */
  ghost predicate Current(rows: map<Key, Row>, repository: int, window: set<TestResult>, runs: map<int, RunRow>)
    requires Linked(window, runs)
  {
    forall test :: Key(repository, test) in rows ==>
      rows[Key(repository, test)].verdict == VerdictOf(window, runs, test)
  }

  /** An old verdict that says something is spared by the reset though the query had no line for its test. */
  predicate Stale(
    before: map<Key, Row>, repository: int, queried: set<TestResult>, later: set<TestResult>, test: int) {
    && Key(repository, test) in before && before[Key(repository, test)].verdict != Silent()
    && Spared(later, test) && !Spared(queried, test)
  }

  lemma UncountedIsSilent(rows: set<TestResult>, runs: map<int, RunRow>, test: int)
    requires Linked(rows, runs) && !Spared(rows, test)
    ensures VerdictOf(rows, runs, test) == Silent()
  {
    SummarizedMeansCounted(rows, runs, test);
    var obs := Observations(rows, runs, test);
    assert Side(obs, true) == {} && Side(obs, false) == {} && FlipSet(obs) == {} && TransitionSet(obs) == {};
  }

  /**
   * When results only arrive between the two statements, the stored verdicts are current exactly if no
   * telling old verdict belongs to a test whose first counted result arrived in between.
   */
  lemma CurrentIffNoneStale(
    before: map<Key, Row>, after: map<Key, Row>, repository: int,
    queried: set<TestResult>, later: set<TestResult>, runs: map<int, RunRow>)
    requires Linked(queried, runs) && queried <= later
    requires AllRecomputed(before, after, repository, queried, later, runs)
    ensures Current(after, repository, queried, runs)
            <==> forall test :: !Stale(before, repository, queried, later, test)
  {
    forall test
      ensures Key(repository, test) in after ==>
                (after[Key(repository, test)].verdict == VerdictOf(queried, runs, test)
                 <==> !Stale(before, repository, queried, later, test))
      ensures Stale(before, repository, queried, later, test) ==> Key(repository, test) in after
    {
      assert Recomputed(before, after, Key(repository, test), queried, later, runs);
      if !Spared(queried, test) { UncountedIsSilent(queried, runs, test); }
    }
  }

  /** The `flaky_tests` table. */
  class FlakyTable {
    var rows: map<Key, Row>

    constructor ()
      ensures rows == map[]
    {
      rows := map[];
    }

    /**
     * `recompute`: every verdict of the repository is the one of the results its query saw, or silent if
     * the reset saw none, whatever the table held before; only a test the query had no line for and the
     * reset spares keeps its old row. Other repositories and the quarantine flags are untouched.
     */
    method Recompute(
      repository: int, results: set<TestResult>, later: set<TestResult>, runs: map<int, RunRow>, asOf: int,
      windowDays: nat)
      requires Linked(results, runs)
      modifies this
      ensures var from := asOf - windowDays * SECONDS_PER_DAY;
              var queried := Window(results, repository, from, asOf);
              && Linked(queried, runs)
              && (forall r :: r in queried <==>
                    r in results && r.repository == repository && asOf - windowDays * 86400 <= r.at <= asOf)
              && AllRecomputed(old(rows), rows, repository, queried, Window(later, repository, from, asOf), runs)
      ensures LeavesOthers(old(rows), rows, repository)
    {
      var from := asOf - windowDays * SECONDS_PER_DAY;
      var queried, remaining := Window(results, repository, from, asOf), Window(later, repository, from, asOf);
      UpsertAll(repository, Summaries(queried, runs), windowDays);
      ghost var mid := rows;
      Reset(repository, remaining);
      RecomputedRows(old(rows), mid, rows, repository, queried, remaining, runs);
      RecomputeLeavesOthers(old(rows), mid, rows, repository, queried, remaining, runs);
    }

    /** The loop over the summaries. */
    method UpsertAll(repository: int, summaries: map<int, set<Observation>>, windowDays: nat)
      modifies this
      ensures Upserted(old(rows), rows, repository, summaries, summaries.Keys)
    {
      var pending := summaries.Keys;
      while pending != {}
        invariant pending <= summaries.Keys
        invariant Upserted(old(rows), rows, repository, summaries, summaries.Keys - pending)
        decreases |pending|
      {
        HasElement(pending);
        var test :| test in pending;
        ghost var before := rows;
        Upsert(Key(repository, test), summaries[test], windowDays);
        UpsertedOneMore(old(rows), before, rows, repository, summaries, summaries.Keys - pending, test);
        assert summaries.Keys - (pending - {test}) == (summaries.Keys - pending) + {test};
        pending := pending - {test};
      }
      assert summaries.Keys - pending == summaries.Keys;
    }

    /** INSERT … ON CONFLICT DO UPDATE: every column but the quarantine flag is overwritten. */
    method Upsert(key: Key, obs: set<Observation>, windowDays: nat)
      modifies this
      ensures key in rows && rows == old(rows)[key := rows[key]] && UpsertedRow(old(rows), key, rows[key], obs)
      ensures rows[key].windowDays == windowDays
      ensures rows[key].firstSeen == Earliest(Instants(obs)) && rows[key].lastSeen == Latest(Instants(obs))
      ensures rows[key].lastFailed == Latest(Instants(Side(obs, false)))
    {
      var quarantined := key in rows && rows[key].quarantined;
      rows := rows[key := Row(VerdictOn(obs), windowDays, Earliest(Instants(obs)), Latest(Instants(obs)),
                              Latest(Instants(Side(obs, false))), quarantined)];
    }

    /** The final UPDATE … WHERE NOT EXISTS: it clears counts and verdict and keeps the other columns. */
    method Reset(repository: int, window: set<TestResult>)
      modifies this
      ensures WasReset(old(rows), rows, repository, window)
    {
      rows := map key: Key | key in rows ::
        if key.repository == repository && !Spared(window, key.test) then Silenced(rows[key]) else rows[key];
      forall key: Key ensures ResetKey(old(rows), rows, repository, window, key) {}
    }
  }
}
