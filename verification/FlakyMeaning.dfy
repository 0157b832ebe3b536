/** What the flaky-test queries compute, in terms of the stored results alone. */
module FlakyMeaning {
  import opened Basics
  import opened Wrappers
  import opened Rates
  import opened Flaky

  /** Runs are compared if they are of one commit and one workflow; a run without a workflow only with itself. */
  lemma PartitionMeans(a: RunRow, b: RunRow)
    ensures PartitionOf(a) == PartitionOf(b) <==>
            && a.sha == b.sha
            && ((a.workflow.Some? && b.workflow.Some? && a.workflow.value == b.workflow.value)
                || (a.workflow.None? && b.workflow.None? && a.githubRun == b.githubRun))
  {}

  predicate IsResultOf(r: TestResult, test: int, run: int) {
    r.test == test && r.run == run
  }

  predicate HasPass(rows: set<TestResult>, test: int, run: int) {
    exists r :: r in rows && IsResultOf(r, test, run) && r.status == Passed
  }

  predicate HasFailure(rows: set<TestResult>, test: int, run: int) {
    exists r :: r in rows && IsResultOf(r, test, run) && (r.status == Failed || r.status == Error)
  }

  /** A failed or errored result makes the run failed; a pass counts only if there is none. */
  lemma OutcomeMeans(rows: set<TestResult>, test: int, run: int)
    ensures var g := GroupOf(rows, test, run);
            && (Outcome(g) == Failed <==> HasFailure(rows, test, run))
            && (Outcome(g) == Passed <==> HasPass(rows, test, run) && !HasFailure(rows, test, run))
            && (Outcome(g) == Skipped <==> !HasPass(rows, test, run) && !HasFailure(rows, test, run))
  {
    var g := GroupOf(rows, test, run);
    if r :| r in rows && IsResultOf(r, test, run) && (r.status == Failed || r.status == Error) { assert r in g; }
    if r :| r in rows && IsResultOf(r, test, run) && r.status == Passed { assert r in g; }
    if r :| r in g && (r.status == Failed || r.status == Error) { assert IsResultOf(r, test, run); }
    if r :| r in g && r.status == Passed { assert IsResultOf(r, test, run); }
  }

  /** The run's last result of the test, of any status, came at this time. */
  predicate LastAt(rows: set<TestResult>, test: int, run: int, at: int) {
    && (exists r :: r in rows && IsResultOf(r, test, run) && r.at == at)
    && (forall r :: r in rows && IsResultOf(r, test, run) ==> r.at <= at)
  }

  /** The run passed or failed the test. */
  predicate Tells(rows: set<TestResult>, test: int, run: int) {
    HasPass(rows, test, run) || HasFailure(rows, test, run)
  }

  /** o is what its run says about the test. */
  predicate Says(rows: set<TestResult>, runs: map<int, RunRow>, test: int, o: Observation) {
    && o.run in runs && o.partition == PartitionOf(runs[o.run])
    && Tells(rows, test, o.run) && o.passed == !HasFailure(rows, test, o.run) && LastAt(rows, test, o.run, o.at)
  }

  lemma TellsMeansRun(rows: set<TestResult>, test: int, run: int)
    requires Tells(rows, test, run)
    ensures run in RunsOf(rows, test)
  {
    if r :| r in rows && IsResultOf(r, test, run) && r.status == Passed {
      assert r.run in RunsOf(rows, test);
    }
    if r :| r in rows && IsResultOf(r, test, run) && (r.status == Failed || r.status == Error) {
      assert r.run in RunsOf(rows, test);
    }
  }

  lemma LastAtIsMax(rows: set<TestResult>, test: int, run: int, at: int)
    ensures LastAt(rows, test, run, at) <==> IsMax(Times(GroupOf(rows, test, run)), at)
  {
    var g := GroupOf(rows, test, run);
    if LastAt(rows, test, run, at) {
      var r :| r in rows && IsResultOf(r, test, run) && r.at == at;
      assert r in g && r.at in Times(g);
      forall x | x in Times(g) ensures x <= at {
        var y :| y in g && y.at == x;
        assert IsResultOf(y, test, run);
      }
    }
    if IsMax(Times(g), at) {
      var r :| r in g && r.at == at;
      assert IsResultOf(r, test, run);
      forall y | y in rows && IsResultOf(y, test, run) ensures y.at <= at {
        assert y in g && y.at in Times(g);
      }
    }
  }

  lemma ObserveSays(rows: set<TestResult>, runs: map<int, RunRow>, test: int, run: int)
    requires run in RunsOf(rows, test) && run in runs && Tells(rows, test, run)
    ensures Says(rows, runs, test, Observe(rows, runs, test, run))
    ensures Observe(rows, runs, test, run).run == run
  {
    OutcomeMeans(rows, test, run);
    LastAtIsMax(rows, test, run, Observe(rows, runs, test, run).at);
  }

  lemma SaysOneThing(rows: set<TestResult>, runs: map<int, RunRow>, test: int, o: Observation, q: Observation)
    requires Says(rows, runs, test, o) && Says(rows, runs, test, q) && o.run == q.run
    ensures o == q
  {
    LastAtIsMax(rows, test, o.run, o.at);
    LastAtIsMax(rows, test, q.run, q.at);
  }

  /** The rows the window functions run over are exactly what the telling runs say, each run once. */
  lemma ObservationsMean(rows: set<TestResult>, runs: map<int, RunRow>, test: int)
    requires Linked(rows, runs)
    ensures forall o :: o in Observations(rows, runs, test) <==> Says(rows, runs, test, o)
    ensures forall run :: Tells(rows, test, run) ==> exists o :: Says(rows, runs, test, o) && o.run == run
    ensures DistinctRuns(Observations(rows, runs, test))
  {
    forall run | Tells(rows, test, run) ensures exists o :: Says(rows, runs, test, o) && o.run == run {
      RunIsStored(rows, runs, test, run);
      ObserveSays(rows, runs, test, run);
    }
    forall o ensures o in Observations(rows, runs, test) <==> Says(rows, runs, test, o) {
      ObservationSays(rows, runs, test, o);
    }
    forall o, q | o in Observations(rows, runs, test) && q in Observations(rows, runs, test) && o.run == q.run
      ensures o == q
    {
      SaysOneThing(rows, runs, test, o, q);
    }
  }

  lemma RunIsStored(rows: set<TestResult>, runs: map<int, RunRow>, test: int, run: int)
    requires Linked(rows, runs) && Tells(rows, test, run)
    ensures run in RunsOf(rows, test) && run in runs
  {
    TellsMeansRun(rows, test, run);
  }

  lemma ObservationSays(rows: set<TestResult>, runs: map<int, RunRow>, test: int, o: Observation)
    requires Linked(rows, runs)
    ensures o in Observations(rows, runs, test) <==> Says(rows, runs, test, o)
  {
    OutcomeMeans(rows, test, o.run);
    if Says(rows, runs, test, o) {
      RunIsStored(rows, runs, test, o.run);
      ObserveSays(rows, runs, test, o.run);
      SaysOneThing(rows, runs, test, o, Observe(rows, runs, test, o.run));
    }
    if o in Observations(rows, runs, test) {
      assert o == Observe(rows, runs, test, o.run);
      ObserveSays(rows, runs, test, o.run);
    }
  }

  // ---- Flips, read off a listing in time order ----

  /** s lists the rows of one partition by time, and rows of equal time by run. */
  ghost predicate Lists(s: seq<Observation>, obs: set<Observation>, partition: Partition) {
    && (forall o :: o in s <==> o in obs && o.partition == partition)
    && forall i, j :: 0 <= i < j < |s| ==> s[i].at < s[j].at || (s[i].at == s[j].at && s[i].run < s[j].run)
  }

  lemma ListedBefore(s: seq<Observation>, obs: set<Observation>, partition: Partition, i: nat, j: nat)
    requires Lists(s, obs, partition) && i < |s| && j < |s|
    ensures Before(s[i], s[j]) <==> i < j
  {
    assert s[i] in s && s[j] in s;
    assert i < j ==> s[i].at < s[j].at || (s[i].at == s[j].at && s[i].run < s[j].run);
    assert j < i ==> s[j].at < s[i].at || (s[j].at == s[i].at && s[j].run < s[i].run);
  }

  lemma PreviousIsAdjacent(s: seq<Observation>, obs: set<Observation>, partition: Partition, i: nat, p: Observation)
    requires Lists(s, obs, partition) && i < |s|
    ensures IsPrevious(p, s[i], obs) <==> i > 0 && p == s[i - 1]
  {
    assert s[i] in s;
    if IsPrevious(p, s[i], obs) {
      assert p in s;
      var j :| 0 <= j < |s| && s[j] == p;
      ListedBefore(s, obs, partition, j, i);
      if j < i - 1 {
        ListedBefore(s, obs, partition, j, i - 1);
        ListedBefore(s, obs, partition, i - 1, i);
        assert s[i - 1] in s && Between(p, s[i - 1], s[i]);
      }
    }
    if i > 0 && p == s[i - 1] {
      assert s[i - 1] in s;
      ListedBefore(s, obs, partition, i - 1, i);
      forall x | x in obs ensures !Between(p, x, s[i]) {
        if x in s {
          var j :| 0 <= j < |s| && s[j] == x;
          ListedBefore(s, obs, partition, i - 1, j);
          ListedBefore(s, obs, partition, j, i);
        }
      }
    }
  }

  /**
   * In a listing of one commit's runs by time, every row but the first is a transition, and a flip is a row
   * whose outcome is not that of the row right before it.
   */
  lemma FlipsAreAdjacentChanges(s: seq<Observation>, obs: set<Observation>, partition: Partition, i: nat)
    requires Lists(s, obs, partition) && i < |s|
    ensures s[i] in TransitionSet(obs) <==> i > 0
    ensures s[i] in FlipSet(obs) <==> i > 0 && s[i - 1].passed != s[i].passed
  {
    assert s[i] in s;
    forall p ensures IsPrevious(p, s[i], obs) <==> i > 0 && p == s[i - 1] {
      PreviousIsAdjacent(s, obs, partition, i, p);
    }
    if i > 0 { assert s[i - 1] in s; }
  }

  // ---- The stored counts ----

  function RunsIn(obs: set<Observation>): set<int> {
    set o | o in obs :: o.run
  }

  lemma {:induction false} RunsCount(obs: set<Observation>)
    requires DistinctRuns(obs)
    ensures |RunsIn(obs)| == |obs|
    decreases |obs|
  {
    if o :| o in obs {
      RunsCount(obs - {o});
      assert RunsIn(obs) == RunsIn(obs - {o}) + {o.run};
      assert o.run !in RunsIn(obs - {o});
    }
  }

  /** The stored runs that passed the test, and those that failed it. */
  function PassedRuns(rows: set<TestResult>, runs: map<int, RunRow>, test: int): set<int> {
    set run | run in runs && HasPass(rows, test, run) && !HasFailure(rows, test, run)
  }

  function FailedRuns(rows: set<TestResult>, runs: map<int, RunRow>, test: int): set<int> {
    set run | run in runs && HasFailure(rows, test, run)
  }

  lemma SideRuns(rows: set<TestResult>, runs: map<int, RunRow>, test: int, obs: set<Observation>)
    requires Linked(rows, runs) && obs == Observations(rows, runs, test)
    ensures RunsIn(Side(obs, true)) == PassedRuns(rows, runs, test)
    ensures RunsIn(Side(obs, false)) == FailedRuns(rows, runs, test)
  {
    ObservationsMean(rows, runs, test);
    forall run ensures run in RunsIn(Side(obs, true)) <==> run in PassedRuns(rows, runs, test) {
      if run in PassedRuns(rows, runs, test) {
        assert Tells(rows, test, run);
        var o :| Says(rows, runs, test, o) && o.run == run;
        assert o in Side(obs, true);
      }
    }
    forall run ensures run in RunsIn(Side(obs, false)) <==> run in FailedRuns(rows, runs, test) {
      if run in FailedRuns(rows, runs, test) {
        assert Tells(rows, test, run);
        var o :| Says(rows, runs, test, o) && o.run == run;
        assert o in Side(obs, false);
      }
    }
  }

  /** The commits and workflows the telling runs belong to. */
  function PartitionsTold(rows: set<TestResult>, runs: map<int, RunRow>, test: int): set<Partition> {
    set run | run in runs && Tells(rows, test, run) :: PartitionOf(runs[run])
  }

  lemma PartitionsAreTold(rows: set<TestResult>, runs: map<int, RunRow>, test: int)
    requires Linked(rows, runs)
    ensures Partitions(Observations(rows, runs, test)) == PartitionsTold(rows, runs, test)
  {
    var obs := Observations(rows, runs, test);
    ObservationsMean(rows, runs, test);
    forall p ensures p in Partitions(obs) <==> p in PartitionsTold(rows, runs, test) {
      if p in Partitions(obs) {
        var o :| o in obs && o.partition == p;
        assert o.run in runs && Tells(rows, test, o.run);
      }
      if p in PartitionsTold(rows, runs, test) {
        var run :| run in runs && Tells(rows, test, run) && PartitionOf(runs[run]) == p;
        var o :| Says(rows, runs, test, o) && o.run == run;
        assert o in obs;
      }
    }
  }

  /**
   * The stored counts are numbers of runs, and the rate is that of flips among the transitions, of which
   * each commit has one fewer than runs.
   */
  lemma VerdictCounts(rows: set<TestResult>, runs: map<int, RunRow>, test: int)
    requires Linked(rows, runs)
    ensures var v := VerdictOf(rows, runs, test);
            var transitions := v.total - |PartitionsTold(rows, runs, test)|;
            && v.passed == |PassedRuns(rows, runs, test)| && v.failed == |FailedRuns(rows, runs, test)|
            && v.total == v.passed + v.failed && transitions >= 0
            && v.rate == (if transitions == 0 then 0 else HalfUp4(v.flips, transitions))
            && v.flips == |FlipSet(Observations(rows, runs, test))| && (v.flaky <==> v.flips > 0)
  {
    var obs := Observations(rows, runs, test);
    RunsAreDistinct(rows, runs, test);
    SideRuns(rows, runs, test, obs);
    PartitionsAreTold(rows, runs, test);
    VerdictOnCounts(obs);
  }

  lemma RunsAreDistinct(rows: set<TestResult>, runs: map<int, RunRow>, test: int)
    requires Linked(rows, runs)
    ensures DistinctRuns(Observations(rows, runs, test))
  {
    ObservationsMean(rows, runs, test);
  }

  lemma VerdictOnCounts(obs: set<Observation>)
    requires DistinctRuns(obs)
    ensures var v := VerdictOn(obs);
            var transitions := v.total - |Partitions(obs)|;
            && v.passed == |RunsIn(Side(obs, true))| && v.failed == |RunsIn(Side(obs, false))|
            && v.total == v.passed + v.failed && transitions >= 0
            && v.rate == (if transitions == 0 then 0 else HalfUp4(v.flips, transitions))
            && v.flips == |FlipSet(obs)| && (v.flaky <==> v.flips > 0)
  {
    RunsCount(Side(obs, true));
    RunsCount(Side(obs, false));
    FlipsAreBounded(obs);
    TransitionsAreRunsMinusPartitions(obs);
  }

  /** Two stored runs of one workflow on one commit, of which one passed the test and the other failed it. */
  predicate Contradict(rows: set<TestResult>, runs: map<int, RunRow>, test: int, a: int, b: int) {
    && a in runs && b in runs && runs[a].sha == runs[b].sha
    && (if runs[a].workflow.Some? then runs[b].workflow == runs[a].workflow
        else runs[b].workflow.None? && runs[b].githubRun == runs[a].githubRun)
    && HasPass(rows, test, a) && !HasFailure(rows, test, a) && HasFailure(rows, test, b)
  }

  /** A test is flaky exactly if two runs contradict each other about it. */
  lemma FlakyIffContradicted(rows: set<TestResult>, runs: map<int, RunRow>, test: int)
    requires Linked(rows, runs)
    ensures VerdictOf(rows, runs, test).flaky <==> exists a, b :: Contradict(rows, runs, test, a, b)
  {
    VerdictIsCharacterised(rows, runs, test);
    forall a, b ensures Contradict(rows, runs, test, a, b) <==>
              a in RunsOf(rows, test) && b in RunsOf(rows, test) && Disagree(rows, runs, test, a, b) {
      ContradictionIsDisagreement(rows, runs, test, a, b);
    }
  }

  lemma ContradictionIsDisagreement(rows: set<TestResult>, runs: map<int, RunRow>, test: int, a: int, b: int)
    requires Linked(rows, runs)
    ensures Contradict(rows, runs, test, a, b)
            <==> a in RunsOf(rows, test) && b in RunsOf(rows, test) && Disagree(rows, runs, test, a, b)
  {
    OutcomeMeans(rows, test, a);
    OutcomeMeans(rows, test, b);
    if Contradict(rows, runs, test, a, b) {
      TellsMeansRun(rows, test, a);
      TellsMeansRun(rows, test, b);
    }
    if a in runs && b in runs { PartitionMeans(runs[a], runs[b]); }
  }
}
