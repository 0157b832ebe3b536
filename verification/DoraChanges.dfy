/** What one more deployment does to rows that are not recomputed, and how an organization's stored rows add up. */
module DoraChanges {
  import opened Basics
  import opened Wrappers
  import opened Calendar
  import opened Dora
  import P = Percentile

  // ---- One more deployment changes recoveries, and nothing else of earlier facts ----

  lemma {:induction false} PrefixDecides(facts: seq<Deployment>, x: Deployment, n: nat, repository: int, after: int)
    requires n <= |facts|
    ensures NextSuccess(facts + [x], n, repository, after) == NextSuccess(facts, n, repository, after)
  {
    if n > 0 { PrefixDecides(facts, x, n - 1, repository, after); }
  }

  /** What is known about one earlier deployment once x is there. */
  function Revised(f: Fact, x: Deployment): Fact {
    if Recovers(x, f.deployment.repository, f.deployment.at) then f.(recoveredAt := Earlier(f.recoveredAt, x.at)) else f
  }

  lemma {:induction false} AnnotateOneMore(facts: seq<Deployment>, x: Deployment, i: nat)
    requires i < |facts|
    ensures Annotate(facts + [x])[i] == Revised(Annotate(facts)[i], x)
  {
    var d := facts[i];
    PrefixDecides(facts, x, |facts|, d.repository, d.at);
    assert (facts + [x])[i] == d && (facts + [x])[|facts|] == x;
  }

  /** x is an earlier recovery from this failure than the one known, or the first. */
  predicate Hastens(x: Deployment, f: Fact) {
    && IsFailure(f.deployment) && Recovers(x, f.deployment.repository, f.deployment.at)
    && (f.recoveredAt.None? || x.at < f.recoveredAt.value)
  }

  lemma RevisedSample(f: Fact, x: Deployment)
    ensures Revised(f, x).deployment == f.deployment
    ensures RecoverySample(Revised(f, x))
            == if Hastens(x, f) then multiset{x.at - f.deployment.at} else RecoverySample(f)
  {}

  /** The failures of a span whose recovery x hastens. */
  predicate Affected(
    facts: seq<Fact>, x: Deployment, i: int, scope: Scope, repos: Directory, from: int, until: int) {
    && 0 <= i < |facts| && Selected(facts[i].deployment, scope, repos, from, until) && Hastens(x, facts[i])
  }

  /** The same facts, as far as counts, failures and lead times go; the recoveries are the revised ones. */
  ghost predicate AreRevised(facts: seq<Fact>, revised: seq<Fact>, x: Deployment) {
    |revised| >= |facts| && forall i :: 0 <= i < |facts| ==> revised[i] == Revised(facts[i], x)
  }

  /** Equal but for the recoveries. */
  predicate SameBut(t: Totals, t': Totals) {
    t'.count == t.count && t'.failures == t.failures && t'.leads == t.leads
  }

  lemma PlusKeeps(t: Totals, t': Totals, a: Totals, a': Totals)
    requires SameBut(t, t') && SameBut(a, a')
    ensures SameBut(Plus(t, a), Plus(t', a'))
    ensures t'.recoveries == t.recoveries && a' == a ==> Plus(t', a').recoveries == Plus(t, a).recoveries
  {}

  lemma OneRevised(f: Fact, x: Deployment)
    ensures SameBut(One(f), One(Revised(f, x))) && (!Hastens(x, f) ==> One(Revised(f, x)) == One(f))
  {
    RevisedSample(f, x);
  }

  ghost predicate NoneAffected(facts: seq<Fact>, x: Deployment, scope: Scope, repos: Directory, from: int, until: int) {
    forall i :: !Affected(facts, x, i, scope, repos, from, until)
  }

  lemma {:induction false} RevisedStep(
    facts: seq<Fact>, revised: seq<Fact>, x: Deployment, k: nat, scope: Scope, repos: Directory, from: int, until: int,
    t: Totals, t': Totals)
    requires AreRevised(facts, revised, x) && k < |facts|
    requires t == Tally(facts, k, scope, repos, from, until) && t' == Tally(revised, k, scope, repos, from, until)
    requires SameBut(t, t')
    ensures SameBut(Tally(facts, k + 1, scope, repos, from, until), Tally(revised, k + 1, scope, repos, from, until))
    ensures t' == t && !Affected(facts, x, k, scope, repos, from, until) ==>
              Tally(revised, k + 1, scope, repos, from, until) == Tally(facts, k + 1, scope, repos, from, until)
  {
    TallyStep(facts, k, scope, repos, from, until);
    TallyStep(revised, k, scope, repos, from, until);
    OneRevised(facts[k], x);
    PlusKeeps(t, t', One(facts[k]), One(revised[k]));
  }

  lemma {:induction false} RevisedTally(
    facts: seq<Fact>, revised: seq<Fact>, x: Deployment, n: nat, scope: Scope, repos: Directory, from: int, until: int)
    requires AreRevised(facts, revised, x) && n <= |facts|
    ensures SameBut(Tally(facts, n, scope, repos, from, until), Tally(revised, n, scope, repos, from, until))
    ensures NoneAffected(facts, x, scope, repos, from, until) ==>
              Tally(revised, n, scope, repos, from, until) == Tally(facts, n, scope, repos, from, until)
  {
    if n > 0 {
      var k := n - 1;
      RevisedTally(facts, revised, x, k, scope, repos, from, until);
      RevisedStep(facts, revised, x, k, scope, repos, from, until,
        Tally(facts, k, scope, repos, from, until), Tally(revised, k, scope, repos, from, until));
    }
  }

  /** The last of the affected failures, whose new sample is the smallest. */
  lemma {:induction false} LastAffected(
    facts: seq<Fact>, x: Deployment, n: nat, scope: Scope, repos: Directory, from: int, until: int) returns (last: int)
    requires exists i :: i < n && Affected(facts, x, i, scope, repos, from, until)
    ensures last < n && Affected(facts, x, last, scope, repos, from, until)
    ensures forall i :: i < n && Affected(facts, x, i, scope, repos, from, until) ==>
              facts[i].deployment.at <= facts[last].deployment.at
  {
    var k := n - 1;
    if exists i :: i < k && Affected(facts, x, i, scope, repos, from, until) {
      last := LastAffected(facts, x, k, scope, repos, from, until);
      if Affected(facts, x, k, scope, repos, from, until) && facts[last].deployment.at <= facts[k].deployment.at {
        last := k;
      }
    } else {
      last := k;
    }
  }

  /** One fact's share of the samples of size v, before and after. */
  lemma RevisedShare(f: Fact, x: Deployment, at: int)
    requires Hastens(x, f) ==> f.deployment.at <= at
    ensures var v := x.at - at;
            RecoverySample(Revised(f, x))[v]
            == RecoverySample(f)[v] + if Hastens(x, f) && f.deployment.at == at then 1 else 0
  {
    RevisedSample(f, x);
  }

  /** What one fact adds to the samples of size v. */
  function SampleAt(f: Fact, scope: Scope, repos: Directory, from: int, until: int, v: int): nat {
    if Selected(f.deployment, scope, repos, from, until) then RecoverySample(f)[v] else 0
  }

  /** The samples of size v among the first n facts. */
  function SamplesAt(facts: seq<Fact>, n: nat, scope: Scope, repos: Directory, from: int, until: int, v: int): nat
    requires n <= |facts|
  {
    if n == 0 then 0
    else SamplesAt(facts, n - 1, scope, repos, from, until, v) + SampleAt(facts[n - 1], scope, repos, from, until, v)
  }

  lemma {:induction false} SamplesAreTallied(
    facts: seq<Fact>, n: nat, scope: Scope, repos: Directory, from: int, until: int, v: int)
    requires n <= |facts|
    ensures Tally(facts, n, scope, repos, from, until).recoveries[v]
            == SamplesAt(facts, n, scope, repos, from, until, v)
  {
    if n > 0 {
      SamplesAreTallied(facts, n - 1, scope, repos, from, until, v);
      TallyStep(facts, n - 1, scope, repos, from, until);
    }
  }

  /** No affected failure comes after this one. */
  ghost predicate NoneLater(
    facts: seq<Fact>, x: Deployment, at: int, scope: Scope, repos: Directory, from: int, until: int) {
    forall i {:trigger Affected(facts, x, i, scope, repos, from, until)} ::
      Affected(facts, x, i, scope, repos, from, until) ==> facts[i].deployment.at <= at
  }

  lemma NewSample(
    facts: seq<Fact>, x: Deployment, k: nat, at: int, scope: Scope, repos: Directory, from: int, until: int, v: int)
    requires k < |facts| && v == x.at - at && NoneLater(facts, x, at, scope, repos, from, until)
    ensures SampleAt(Revised(facts[k], x), scope, repos, from, until, v)
            == SampleAt(facts[k], scope, repos, from, until, v)
               + if Affected(facts, x, k, scope, repos, from, until) && facts[k].deployment.at == at then 1 else 0
  {
    RevisedSample(facts[k], x);
    if Selected(facts[k].deployment, scope, repos, from, until) {
      assert Hastens(x, facts[k]) <==> Affected(facts, x, k, scope, repos, from, until);
      RevisedShare(facts[k], x, at);
    }
  }

  lemma {:induction false} NewSampleStep(
    facts: seq<Fact>, revised: seq<Fact>, x: Deployment, k: nat, last: nat, at: int,
    scope: Scope, repos: Directory, from: int, until: int, v: int, a: nat, b: nat)
    requires AreRevised(facts, revised, x) && k < |facts| && NoneLater(facts, x, at, scope, repos, from, until)
    requires Affected(facts, x, last, scope, repos, from, until) && at == facts[last].deployment.at && v == x.at - at
    requires a == SamplesAt(facts, k, scope, repos, from, until, v)
    requires b == SamplesAt(revised, k, scope, repos, from, until, v) && b >= a + if last < k then 1 else 0
    ensures SamplesAt(revised, k + 1, scope, repos, from, until, v)
            >= SamplesAt(facts, k + 1, scope, repos, from, until, v) + if last < k + 1 then 1 else 0
  {
    NewSample(facts, x, k, at, scope, repos, from, until, v);
  }

  /** At the smallest new sample only new samples come in, and none goes. */
  lemma {:induction false} NewSampleCounts(
    facts: seq<Fact>, revised: seq<Fact>, x: Deployment, n: nat, last: nat, at: int,
    scope: Scope, repos: Directory, from: int, until: int, v: int)
    requires AreRevised(facts, revised, x) && n <= |facts| && NoneLater(facts, x, at, scope, repos, from, until)
    requires Affected(facts, x, last, scope, repos, from, until) && at == facts[last].deployment.at && v == x.at - at
    ensures SamplesAt(revised, n, scope, repos, from, until, v)
            >= SamplesAt(facts, n, scope, repos, from, until, v) + if last < n then 1 else 0
  {
    if n > 0 {
      var k := n - 1;
      NewSampleCounts(facts, revised, x, k, last, at, scope, repos, from, until, v);
      NewSampleStep(facts, revised, x, k, last, at, scope, repos, from, until, v,
        SamplesAt(facts, k, scope, repos, from, until, v), SamplesAt(revised, k, scope, repos, from, until, v));
    }
  }

  /** If any failure is affected, the samples have changed. */
  lemma {:induction false} AffectedSamplesChange(
    facts: seq<Fact>, revised: seq<Fact>, x: Deployment, scope: Scope, repos: Directory, from: int, until: int,
    t: Totals, t': Totals)
    requires AreRevised(facts, revised, x) && !NoneAffected(facts, x, scope, repos, from, until)
    requires t == Tally(facts, |facts|, scope, repos, from, until)
    requires t' == Tally(revised, |facts|, scope, repos, from, until)
    ensures t'.recoveries != t.recoveries
  {
    var last := LastAffected(facts, x, |facts|, scope, repos, from, until);
    var v := x.at - facts[last].deployment.at;
    NewSampleCounts(facts, revised, x, |facts|, last, facts[last].deployment.at, scope, repos, from, until, v);
    SamplesAreTallied(facts, |facts|, scope, repos, from, until, v);
    SamplesAreTallied(revised, |facts|, scope, repos, from, until, v);
  }

  lemma AllRevised(facts: seq<Deployment>, x: Deployment)
    ensures AreRevised(Annotate(facts), Annotate(facts + [x]), x)
  {
    forall i | 0 <= i < |facts| ensures Annotate(facts + [x])[i] == Revised(Annotate(facts)[i], x) {
      AnnotateOneMore(facts, x, i);
    }
  }

  lemma {:induction false} LastIsNotSelected(
    facts: seq<Deployment>, x: Deployment, scope: Scope, repos: Directory, from: int, until: int)
    requires !Selected(x, scope, repos, from, until)
    ensures Tally(Annotate(facts + [x]), |facts| + 1, scope, repos, from, until)
            == Tally(Annotate(facts + [x]), |facts|, scope, repos, from, until)
  {
    assert Annotate(facts + [x])[|facts|].deployment == x;
    TallyStep(Annotate(facts + [x]), |facts|, scope, repos, from, until);
  }

  /**
   * A deployment outside a row's scope or period leaves its count, its failures and its lead times as they
   * are, and its recovery times exactly if it hastens no recovery of the row's failures.
   */
  lemma {:induction false} OtherSpansKeepCounts(
    facts: seq<Deployment>, x: Deployment, scope: Scope, repos: Directory, from: int, until: int)
    requires !Selected(x, scope, repos, from, until)
    ensures var t := Tally(Annotate(facts), |facts|, scope, repos, from, until);
            var t' := Tally(Annotate(facts + [x]), |facts| + 1, scope, repos, from, until);
            && SameBut(t, t')
            && (t'.recoveries == t.recoveries <==> NoneAffected(Annotate(facts), x, scope, repos, from, until))
  {
    var known, revised := Annotate(facts), Annotate(facts + [x]);
    AllRevised(facts, x);
    LastIsNotSelected(facts, x, scope, repos, from, until);
    RevisedTally(known, revised, x, |facts|, scope, repos, from, until);
    if !NoneAffected(known, x, scope, repos, from, until) {
      AffectedSamplesChange(known, revised, x, scope, repos, from, until,
        Tally(known, |facts|, scope, repos, from, until), Tally(revised, |facts|, scope, repos, from, until));
    }
  }

  // ---- Stored rows ----

  function FromOf(p: Period): int {
    p.start * SECONDS_PER_DAY
  }

  function UntilOf(p: Period): int {
    (p.end + 1) * SECONDS_PER_DAY
  }

  /** The lead-time percentiles of a row are those of the period's samples. */
  ghost predicate LeadsAreRight(
    rows: map<RowKey, Row>, facts: seq<Fact>, scope: Scope, repos: Directory, g: Granularity, p: Period) {
    var key, t := RowKey(scope, g, p.start), TallyPeriod(facts, scope, repos, p);
    key in rows && IsPercentile(rows[key].leadP50, t.leads, 0.5) && IsPercentile(rows[key].leadP90, t.leads, 0.9)
  }

  lemma {:induction false} PeriodKeepsCounts(
    facts: seq<Deployment>, x: Deployment, scope: Scope, repos: Directory, p: Period, t: Totals, t': Totals)
    requires !Selected(x, scope, repos, FromOf(p), UntilOf(p))
    requires t == TallyPeriod(Annotate(facts), scope, repos, p)
    requires t' == TallyPeriod(Annotate(facts + [x]), scope, repos, p)
    ensures SameBut(t, t')
    ensures t' == t <==> NoneAffected(Annotate(facts), x, scope, repos, FromOf(p), UntilOf(p))
  {
    OtherSpansKeepCounts(facts, x, scope, repos, FromOf(p), UntilOf(p));
  }

  /**
   * A stored row that was up to date and is not recomputed when a deployment outside its scope or period
   * arrives: its counts, failures and lead times are still right, and all of it is if no recovery of its
   * failures is hastened. Otherwise its samples of recovery times have changed.
   */
  lemma {:induction false} OtherRowsKeepCounts(
    rows: map<RowKey, Row>, facts: seq<Deployment>, x: Deployment, scope: Scope, repos: Directory, g: Granularity,
    p: Period)
    requires UpToDate(rows, Annotate(facts), scope, repos, g, p) && !Selected(x, scope, repos, FromOf(p), UntilOf(p))
    ensures Counts(rows, Annotate(facts + [x]), scope, repos, g, p)
    ensures LeadsAreRight(rows, Annotate(facts + [x]), scope, repos, g, p)
    ensures NoneAffected(Annotate(facts), x, scope, repos, FromOf(p), UntilOf(p)) ==>
              UpToDate(rows, Annotate(facts + [x]), scope, repos, g, p)
  {
    PeriodKeepsCounts(facts, x, scope, repos, p,
      TallyPeriod(Annotate(facts), scope, repos, p), TallyPeriod(Annotate(facts + [x]), scope, repos, p));
  }

  lemma BagHasElement(bag: multiset<int>)
    ensures bag == multiset{} || exists v :: v in bag
  {
    if forall v :: v !in bag { assert bag == multiset{}; }
  }

  lemma {:induction false} Listing(bag: multiset<int>) returns (s: seq<int>)
    ensures multiset(s) == bag
    decreases |bag|
  {
    BagHasElement(bag);
    if bag == multiset{} {
      s := [];
    } else {
      var v :| v in bag;
      var rest := Listing(bag - multiset{v});
      s := rest + [v];
    }
  }

  /** The recovery percentiles of an empty bag are missing, those of any other are not. */
  lemma MissingIffEmpty(value: Option<int>, bag: multiset<int>, p: real)
    requires 0.0 <= p <= 1.0 && IsPercentile(value, bag, p)
    ensures value.None? <==> bag == multiset{}
  {
    var s := Listing(bag);
    assert value == P.Percentile(s, p);
    assert s != [] ==> s[0] in multiset(s);
  }

  /** The other half really fails: a first recovery that arrives in a later period is never seen. */
  lemma {:induction false} FirstRecoveryIsMissed(
    rows: map<RowKey, Row>, facts: seq<Deployment>, x: Deployment, scope: Scope, repos: Directory, g: Granularity,
    p: Period, t: Totals, t': Totals)
    requires t == TallyPeriod(Annotate(facts), scope, repos, p)
    requires t' == TallyPeriod(Annotate(facts + [x]), scope, repos, p)
    requires UpToDate(rows, Annotate(facts), scope, repos, g, p) && !Selected(x, scope, repos, FromOf(p), UntilOf(p))
    requires t.recoveries == multiset{}
    requires !NoneAffected(Annotate(facts), x, scope, repos, FromOf(p), UntilOf(p))
    ensures !UpToDate(rows, Annotate(facts + [x]), scope, repos, g, p)
  {
    PeriodKeepsCounts(facts, x, scope, repos, p, t, t');
    var row := rows[RowKey(scope, g, p.start)];
    MissingIffEmpty(row.mttrP50, t.recoveries, 0.5);
    if IsPercentile(row.mttrP50, t'.recoveries, 0.5) { MissingIffEmpty(row.mttrP50, t'.recoveries, 0.5); }
  }

  /** Two periods of one granularity with the same start are the same. */
  lemma {:induction false} SameStart(g: Granularity, d: LocalDate, e: LocalDate)
    requires ValidDate(d) && ValidDate(e) && PeriodContaining(g, d).start == PeriodContaining(g, e).start
    ensures PeriodContaining(g, d) == PeriodContaining(g, e)
  {
    PeriodIsNotEmpty(g, d);
    PeriodIsNotEmpty(g, e);
    var first := EveryDayIsADate(PeriodContaining(g, d).start);
    PeriodsPartitionTheCalendar(g, d, first);
    PeriodsPartitionTheCalendar(g, e, first);
  }

  /** A deployment of one date is in no other period of the granularity. */
  lemma {:induction false} NotInOtherPeriods(
    x: Deployment, scope: Scope, repos: Directory, g: Granularity, d: LocalDate, e: LocalDate)
    requires ValidDate(d) && ValidDate(e) && x.at / SECONDS_PER_DAY == EpochDay(d)
    requires PeriodContaining(g, d).start != PeriodContaining(g, e).start
    ensures !Selected(x, scope, repos, FromOf(PeriodContaining(g, e)), UntilOf(PeriodContaining(g, e)))
  {
    PeriodsPartitionTheCalendar(g, e, d);
  }

  /** Every stored row of the scope is up to date. */
  ghost predicate AllUpToDate(rows: map<RowKey, Row>, facts: seq<Fact>, scope: Scope, repos: Directory) {
    forall g, e :: ValidDate(e) && RowKey(scope, g, PeriodContaining(g, e).start) in rows ==>
      UpToDate(rows, facts, scope, repos, g, PeriodContaining(g, e))
  }

  /** What `Recompute` of the date promises about one scope. */
  ghost predicate RecomputedFor(
    before: map<RowKey, Row>, after: map<RowKey, Row>, facts: seq<Fact>, scope: Scope, repos: Directory, d: LocalDate)
    requires ValidDate(d)
  {
    && (forall g :: UpToDate(after, facts, scope, repos, g, PeriodContaining(g, d)))
    && (forall key :: key in before && key.periodStart != PeriodContaining(key.granularity, d).start ==>
          key in after && after[key] == before[key])
  }

  /**
   * One deployment arrives and its date is recomputed: every row the table had for the scope still has the
   * right counts, failures and lead times, and the rows of the date's own periods are right throughout.
   */
  lemma {:induction false} RecomputeKeepsCounts(
    before: map<RowKey, Row>, after: map<RowKey, Row>, facts: seq<Deployment>, x: Deployment, scope: Scope,
    repos: Directory, d: LocalDate, g: Granularity, e: LocalDate)
    requires ValidDate(d) && ValidDate(e) && x.at / SECONDS_PER_DAY == EpochDay(d)
    requires AllUpToDate(before, Annotate(facts), scope, repos)
    requires RecomputedFor(before, after, Annotate(facts + [x]), scope, repos, d)
    requires RowKey(scope, g, PeriodContaining(g, e).start) in before
    ensures Counts(after, Annotate(facts + [x]), scope, repos, g, PeriodContaining(g, e))
    ensures LeadsAreRight(after, Annotate(facts + [x]), scope, repos, g, PeriodContaining(g, e))
  {
    var p := PeriodContaining(g, e);
    if PeriodContaining(g, d).start == p.start {
      SameStart(g, d, e);
    } else {
      NotInOtherPeriods(x, scope, repos, g, d, e);
      assert UpToDate(before, Annotate(facts), scope, repos, g, p);
      OtherRowsKeepCounts(before, facts, x, scope, repos, g, p);
    }
  }

  // ---- An organization's stored rows ----

  function StoredFor(rows: map<RowKey, Row>, repository: int, g: Granularity, start: int): nat {
    var key := RowKey(Repository(repository), g, start);
    if key in rows then rows[key].count else 0
  }

  function StoredFailuresFor(rows: map<RowKey, Row>, repository: int, g: Granularity, start: int): nat {
    var key := RowKey(Repository(repository), g, start);
    if key in rows then rows[key].failures else 0
  }

  function SumOfStored(rows: map<RowKey, Row>, repositories: seq<int>, k: nat, g: Granularity, start: int): nat
    requires k <= |repositories|
  {
    if k == 0 then 0
    else SumOfStored(rows, repositories, k - 1, g, start) + StoredFor(rows, repositories[k - 1], g, start)
  }

  function SumOfStoredFailures(rows: map<RowKey, Row>, repositories: seq<int>, k: nat, g: Granularity, start: int): nat
    requires k <= |repositories|
  {
    if k == 0 then 0
    else
      SumOfStoredFailures(rows, repositories, k - 1, g, start) + StoredFailuresFor(rows, repositories[k - 1], g, start)
  }

  /** A sum of repositories agrees with the stored rows. */
  predicate Agrees(t: Totals, rows: map<RowKey, Row>, repositories: seq<int>, k: nat, g: Granularity, start: int)
    requires k <= |repositories|
  {
    && t.count == SumOfStored(rows, repositories, k, g, start)
    && t.failures == SumOfStoredFailures(rows, repositories, k, g, start)
  }

  lemma {:induction false} StoredRepositoryStep(
    rows: map<RowKey, Row>, facts: seq<Fact>, repositories: seq<int>, k: nat, repos: Directory, g: Granularity,
    p: Period, t: Totals, one: Totals)
    requires k < |repositories| && Counts(rows, facts, Repository(repositories[k]), repos, g, p)
    requires Agrees(t, rows, repositories, k, g, p.start)
    requires one == TallyPeriod(facts, Repository(repositories[k]), repos, p)
    ensures Agrees(Plus(t, one), rows, repositories, k + 1, g, p.start)
  {}

  lemma {:induction false} StoredRepositoriesAddUp(
    rows: map<RowKey, Row>, facts: seq<Fact>, repositories: seq<int>, k: nat, repos: Directory, g: Granularity,
    p: Period)
    requires k <= |repositories|
    requires forall i :: 0 <= i < |repositories| ==> Counts(rows, facts, Repository(repositories[i]), repos, g, p)
    ensures Agrees(SumOfRepositories(facts, |facts|, repositories, k, repos, FromOf(p), UntilOf(p)),
                   rows, repositories, k, g, p.start)
  {
    if k > 0 {
      StoredRepositoriesAddUp(rows, facts, repositories, k - 1, repos, g, p);
      StoredRepositoryStep(rows, facts, repositories, k - 1, repos, g, p,
        SumOfRepositories(facts, |facts|, repositories, k - 1, repos, FromOf(p), UntilOf(p)),
        TallyPeriod(facts, Repository(repositories[k - 1]), repos, p));
    }
  }

  /** The organization's stored counts are the sums of its repositories' stored counts. */
  lemma {:induction false} StoredOrganizationRollsUp(
    rows: map<RowKey, Row>, facts: seq<Fact>, organization: int, repositories: seq<int>, repos: Directory,
    g: Granularity, p: Period)
    requires RepositoriesOf(organization, repositories, repos)
    requires Counts(rows, facts, Organization(organization), repos, g, p)
    requires forall i :: 0 <= i < |repositories| ==> Counts(rows, facts, Repository(repositories[i]), repos, g, p)
    ensures var row := rows[RowKey(Organization(organization), g, p.start)];
            && row.count == SumOfStored(rows, repositories, |repositories|, g, p.start)
            && row.failures == SumOfStoredFailures(rows, repositories, |repositories|, g, p.start)
  {
    OrganizationRollsUp(facts, |facts|, organization, repositories, repos, FromOf(p), UntilOf(p));
    StoredRepositoriesAddUp(rows, facts, repositories, |repositories|, repos, g, p);
  }
}
