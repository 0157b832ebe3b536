/** DORA metrics: what one period's row counts, and how the rows of different periods and scopes add up. */
module Dora {
  import opened Basics
  import opened Wrappers
  import opened Calendar
  import opened Rates
  import P = Percentile

  datatype Outcome = Failure | Success | Other

  /** A deployment with its effective time and the time its commit was authored, in seconds. */
  datatype Deployment = Deployment(
    repository: int, outcome: Outcome, at: int, authoredAt: Option<int>, production: bool)

  datatype RepositoryRow = RepositoryRow(organization: int, deleted: bool)

  type Directory = map<int, RepositoryRow>

  datatype Scope = Repository(repository: int) | Organization(organization: int)

  function LowerChar(c: char): char {
    if 'A' <= c <= 'Z' then (c as int + 32) as char else c
  }

  function Lower(s: string): string {
    if s == "" then "" else [LowerChar(s[0])] + Lower(s[1..])
  }

  /** What a stored status means, whatever its letter case; a missing status means nothing. */
  function Classify(status: Option<string>): Outcome {
    if status.None? then Other
    else if Lower(status.value) in {"failure", "failed", "error"} then Failure
    else if Lower(status.value) in {"success", "successful"} then Success
    else Other
  }

  /** A `deployments` row with the author times its two commit joins find. */
  datatype StoredDeployment = StoredDeployment(
    repository: int, status: Option<string>, production: bool,
    deployedAt: Option<int>, startedAt: Option<int>, createdAt: int,
    hasCommit: bool, authoredByCommit: Option<int>, authoredBySha: Option<int>)

  function OrElse<T>(a: Option<T>, b: Option<T>): Option<T> {
    if a.Some? then a else b
  }

  /** The columns both queries read; the join by sha is made only for a row without a commit id. */
  function Load(row: StoredDeployment): Deployment {
    Deployment(row.repository, Classify(row.status),
               OrElse(OrElse(row.deployedAt, row.startedAt), Some(row.createdAt)).value,
               OrElse(if row.hasCommit then row.authoredByCommit else None,
                      if row.hasCommit then None else row.authoredBySha),
               row.production)
  }

  predicate IsLower(s: string) {
    forall i :: 0 <= i < |s| ==> !('A' <= s[i] <= 'Z')
  }

  /** A letter of a lower-case word, or its capital. */
  predicate SameLetter(c: char, w: char) {
    c == w || ('A' <= c <= 'Z' && c as int - 'A' as int == w as int - 'a' as int)
  }

  /** The same letters, where s may have capitals. */
  predicate SameLetters(s: string, word: string) {
    |s| == |word| && forall i :: 0 <= i < |s| ==> SameLetter(s[i], word[i])
  }

  lemma {:induction false} LowerAt(s: string, i: nat)
    requires i < |s|
    ensures |Lower(s)| == |s| && Lower(s)[i] == LowerChar(s[i])
  {
    if i > 0 {
      LowerAt(s[1..], i - 1);
    } else if |s| > 1 {
      LowerAt(s[1..], 0);
    }
  }

  lemma LowerCharMeets(c: char, w: char)
    requires !('A' <= w <= 'Z')
    ensures LowerChar(c) == w <==> SameLetter(c, w)
  {}

  lemma {:induction false} LowerMeets(s: string, word: string)
    requires IsLower(word)
    ensures Lower(s) == word <==> SameLetters(s, word)
  {
    if s != "" { LowerAt(s, 0); }
    forall i | 0 <= i < |s| && |s| == |word| ensures Lower(s)[i] == word[i] <==> SameLetter(s[i], word[i]) {
      LowerAt(s, i);
      LowerCharMeets(s[i], word[i]);
    }
  }

  predicate Reads(status: Option<string>, word: string) {
    status.Some? && SameLetters(status.value, word)
  }

  /** Three words mean failure and two mean success, in any letter case, and nothing else means either. */
  lemma {:induction false} ClassifyMeans(status: Option<string>)
    ensures Classify(status) == Failure
            <==> Reads(status, "failure") || Reads(status, "failed") || Reads(status, "error")
    ensures Classify(status) == Success <==> Reads(status, "success") || Reads(status, "successful")
  {
    if status.Some? {
      var s := status.value;
      LowerMeets(s, "failure");
      LowerMeets(s, "failed");
      LowerMeets(s, "error");
      LowerMeets(s, "success");
      LowerMeets(s, "successful");
      assert "success"[0] != "failure"[0] && |"successful"| == 10;
    }
  }

  /** When a deployment took effect, and when its commit was authored: by id if there is one, else by sha. */
  lemma LoadMeans(row: StoredDeployment)
    ensures var d := Load(row);
            && d.repository == row.repository && d.production == row.production
            && (row.deployedAt.Some? ==> d.at == row.deployedAt.value)
            && (row.deployedAt.None? && row.startedAt.Some? ==> d.at == row.startedAt.value)
            && (row.deployedAt.None? && row.startedAt.None? ==> d.at == row.createdAt)
            && d.authoredAt == (if row.hasCommit then row.authoredByCommit else row.authoredBySha)
            && d.outcome == Classify(row.status)
  {}

  function LoadAll(stored: seq<StoredDeployment>): (facts: seq<Deployment>)
    ensures |facts| == |stored| && forall i :: 0 <= i < |stored| ==> facts[i] == Load(stored[i])
  {
    seq(|stored|, i requires 0 <= i < |stored| => Load(stored[i]))
  }

  predicate IsFailure(d: Deployment) {
    d.outcome == Failure
  }

  predicate IsSuccess(d: Deployment) {
    d.outcome == Success
  }

  predicate InScope(d: Deployment, scope: Scope, repos: Directory) {
    && d.repository in repos
    && match scope
       case Repository(r) => d.repository == r
       case Organization(o) => repos[d.repository].organization == o
  }

  /** `loadDeployments`' WHERE clause for the instants from <= at < until. */
  predicate Selected(d: Deployment, scope: Scope, repos: Directory, from: int, until: int) {
    d.production && InScope(d, scope, repos) && from <= d.at < until
  }

  function Earlier(a: Option<int>, b: int): Option<int> {
    Some(if a.Some? && a.value <= b then a.value else b)
  }

  /** The earliest later success of the same repository among the first n facts. */
  function NextSuccess(facts: seq<Deployment>, n: nat, repository: int, after: int): Option<int>
    requires n <= |facts|
  {
    if n == 0 then None
    else
      var rest := NextSuccess(facts, n - 1, repository, after);
      var d := facts[n - 1];
      if Recovers(d, repository, after) then Earlier(rest, d.at) else rest
  }

  predicate Recovers(d: Deployment, repository: int, after: int) {
    d.production && d.repository == repository && IsSuccess(d) && d.at > after
  }

  /** What qualifies: a later production success of the repository. */
  lemma RecoversMeans(d: Deployment, repository: int, after: int)
    ensures Recovers(d, repository, after) <==>
            d.production && d.repository == repository && d.outcome == Success && after < d.at
  {}

  /** It is a minimum: a qualifying success, and no qualifying one is earlier. */
  lemma {:induction false} NextSuccessIsEarliest(facts: seq<Deployment>, n: nat, repository: int, after: int)
    requires n <= |facts|
    ensures var r := NextSuccess(facts, n, repository, after);
            && (r.Some? ==> exists i :: 0 <= i < n && Recovers(facts[i], repository, after) && facts[i].at == r.value)
            && (forall i :: 0 <= i < n && Recovers(facts[i], repository, after) ==> r.Some? && r.value <= facts[i].at)
  {
    if n > 0 { NextSuccessIsEarliest(facts, n - 1, repository, after); }
  }

  /** A deployment together with what `nextSuccess` answers for it. */
  datatype Fact = Fact(deployment: Deployment, recoveredAt: Option<int>)

  function Annotate(facts: seq<Deployment>): (annotated: seq<Fact>)
    ensures |annotated| == |facts|
    ensures forall i :: 0 <= i < |facts| ==>
              annotated[i] == Fact(facts[i], NextSuccess(facts, |facts|, facts[i].repository, facts[i].at))
  {
    seq(|facts|, i requires 0 <= i < |facts| =>
      Fact(facts[i], NextSuccess(facts, |facts|, facts[i].repository, facts[i].at)))
  }

  /** What a set of deployments amounts to. */
  datatype Totals = Totals(count: int, failures: int, leads: multiset<int>, recoveries: multiset<int>)

  function Zero(): Totals {
    Totals(0, 0, multiset{}, multiset{})
  }

  function Plus(a: Totals, b: Totals): Totals {
    Totals(a.count + b.count, a.failures + b.failures, a.leads + b.leads, a.recoveries + b.recoveries)
  }

  predicate HasLeadTime(d: Deployment) {
    d.authoredAt.Some? && d.authoredAt.value <= d.at
  }

  function LeadSample(d: Deployment): multiset<int> {
    if HasLeadTime(d) then multiset{d.at - d.authoredAt.value} else multiset{}
  }

  function RecoverySample(f: Fact): multiset<int> {
    if IsFailure(f.deployment) && f.recoveredAt.Some?
    then multiset{f.recoveredAt.value - f.deployment.at} else multiset{}
  }

  function One(f: Fact): Totals {
    Totals(1, if IsFailure(f.deployment) then 1 else 0, LeadSample(f.deployment), RecoverySample(f))
  }

  function Share(f: Fact, selected: bool): Totals {
    if selected then One(f) else Zero()
  }

  /** The totals of the selected deployments among the first n facts. */
  function Tally(facts: seq<Fact>, n: nat, scope: Scope, repos: Directory, from: int, until: int): Totals
    requires n <= |facts|
  {
    if n == 0 then Zero()
    else
      Plus(Tally(facts, n - 1, scope, repos, from, until),
           Share(facts[n - 1], Selected(facts[n - 1].deployment, scope, repos, from, until)))
  }

  function TallyPeriod(facts: seq<Fact>, scope: Scope, repos: Directory, p: Period): Totals {
    Tally(facts, |facts|, scope, repos, p.start * SECONDS_PER_DAY, (p.end + 1) * SECONDS_PER_DAY)
  }

  // ---- What a row counts ----

  /** Which deployments a period selects: production ones of the scope, on a day of the period. */
  lemma SelectedMeans(d: Deployment, scope: Scope, repos: Directory, p: Period)
    ensures Selected(d, scope, repos, p.start * SECONDS_PER_DAY, (p.end + 1) * SECONDS_PER_DAY) <==>
            && d.production && d.repository in repos && p.start <= d.at / 86400 <= p.end
            && (scope.Repository? ==> d.repository == scope.repository)
            && (scope.Organization? ==> repos[d.repository].organization == scope.organization)
  {}

  predicate SelectedAt(facts: seq<Fact>, i: int, scope: Scope, repos: Directory, from: int, until: int) {
    0 <= i < |facts| && Selected(facts[i].deployment, scope, repos, from, until)
  }

  predicate FailsAt(facts: seq<Fact>, i: int, scope: Scope, repos: Directory, from: int, until: int) {
    SelectedAt(facts, i, scope, repos, from, until) && facts[i].deployment.outcome == Failure
  }

  /** Selected deployment i came v seconds after its commit was authored, and not before. */
  predicate LeadsBy(facts: seq<Fact>, i: int, scope: Scope, repos: Directory, from: int, until: int, v: int) {
    && SelectedAt(facts, i, scope, repos, from, until)
    && v >= 0 && facts[i].deployment.authoredAt == Some(facts[i].deployment.at - v)
  }

  /** Selected deployment i failed, and the next success came v seconds later. */
  predicate RecoversIn(facts: seq<Fact>, i: int, scope: Scope, repos: Directory, from: int, until: int, v: int) {
    && FailsAt(facts, i, scope, repos, from, until)
    && facts[i].recoveredAt == Some(facts[i].deployment.at + v)
  }

  function Where(n: nat, q: int -> bool): set<int> {
    set i | 0 <= i < n && q(i)
  }

  lemma WhereStep(n: nat, q: int -> bool)
    ensures |Where(n + 1, q)| == |Where(n, q)| + if q(n) then 1 else 0
  {
    assert Where(n + 1, q) == if q(n) then Where(n, q) + {n} else Where(n, q);
  }

  /** What one fact adds to each column. */
  lemma OneMeans(facts: seq<Fact>, n: nat, scope: Scope, repos: Directory, from: int, until: int, v: int)
    requires n < |facts|
    ensures var s := Share(facts[n], Selected(facts[n].deployment, scope, repos, from, until));
            && s.count == (if SelectedAt(facts, n, scope, repos, from, until) then 1 else 0)
            && s.failures == (if FailsAt(facts, n, scope, repos, from, until) then 1 else 0)
            && s.leads[v] == (if LeadsBy(facts, n, scope, repos, from, until, v) then 1 else 0)
            && s.recoveries[v] == (if RecoversIn(facts, n, scope, repos, from, until, v) then 1 else 0)
  {}

  /**
   * The totals are counts: of the selected deployments, of the failed ones among them, and for every number
   * of seconds v, of those with lead time v and of those with recovery time v.
   */
  lemma {:induction false} TallyCounts(
    facts: seq<Fact>, n: nat, scope: Scope, repos: Directory, from: int, until: int, v: int)
    requires n <= |facts|
    ensures var t := Tally(facts, n, scope, repos, from, until);
            && t.count == |Where(n, i => SelectedAt(facts, i, scope, repos, from, until))|
            && t.failures == |Where(n, i => FailsAt(facts, i, scope, repos, from, until))|
            && t.leads[v] == |Where(n, i => LeadsBy(facts, i, scope, repos, from, until, v))|
            && t.recoveries[v] == |Where(n, i => RecoversIn(facts, i, scope, repos, from, until, v))|
  {
    if n > 0 {
      var k := n - 1;
      TallyCounts(facts, k, scope, repos, from, until, v);
      OneMeans(facts, k, scope, repos, from, until, v);
      WhereStep(k, i => SelectedAt(facts, i, scope, repos, from, until));
      WhereStep(k, i => FailsAt(facts, i, scope, repos, from, until));
      WhereStep(k, i => LeadsBy(facts, i, scope, repos, from, until, v));
      WhereStep(k, i => RecoversIn(facts, i, scope, repos, from, until, v));
    }
  }

  // ---- Roll-up over time ----

  lemma PlusZero(a: Totals)
    ensures Plus(a, Zero()) == a && Plus(Zero(), a) == a
  {}

  lemma PlusFour(a: Totals, b: Totals, x: Totals, y: Totals)
    ensures Plus(Plus(a, b), Plus(x, y)) == Plus(Plus(a, x), Plus(b, y))
  {}

  /** A deployment selected by exactly one of two halves is shared out once. */
  lemma ShareSplits(f: Fact, left: bool, right: bool)
    requires !(left && right)
    ensures Share(f, left || right) == Plus(Share(f, left), Share(f, right))
  {}

  lemma {:induction false} TallySplits(
    facts: seq<Fact>, n: nat, scope: Scope, repos: Directory, from: int, mid: int, until: int)
    requires n <= |facts| && from <= mid <= until
    ensures Tally(facts, n, scope, repos, from, until)
            == Plus(Tally(facts, n, scope, repos, from, mid), Tally(facts, n, scope, repos, mid, until))
  {
    if n == 0 {
      PlusZero(Zero());
    } else {
      var f := facts[n - 1];
      var d := f.deployment;
      TallySplits(facts, n - 1, scope, repos, from, mid, until);
      var left, right := Selected(d, scope, repos, from, mid), Selected(d, scope, repos, mid, until);
      ShareSplits(f, left, right);
      assert Selected(d, scope, repos, from, until) == (left || right);
      PlusFour(Tally(facts, n - 1, scope, repos, from, mid), Tally(facts, n - 1, scope, repos, mid, until),
        Share(f, left), Share(f, right));
    }
  }

  /** The sum of the daily rows from `start` up to but excluding `end`. */
  function SumOfDays(facts: seq<Fact>, scope: Scope, repos: Directory, start: int, end: int): Totals
    requires start <= end
    decreases end - start
  {
    if start == end then Zero()
    else Plus(SumOfDays(facts, scope, repos, start, end - 1),
              TallyPeriod(facts, scope, repos, Period(end - 1, end - 1)))
  }

  lemma {:induction false} EmptySpan(facts: seq<Fact>, n: nat, scope: Scope, repos: Directory, at: int)
    requires n <= |facts|
    ensures Tally(facts, n, scope, repos, at, at) == Zero()
  {
    if n > 0 {
      EmptySpan(facts, n - 1, scope, repos, at);
      PlusZero(Zero());
    }
  }

  lemma {:induction false} DaysAddUp(facts: seq<Fact>, scope: Scope, repos: Directory, start: int, end: int)
    requires start <= end
    ensures Tally(facts, |facts|, scope, repos, start * SECONDS_PER_DAY, end * SECONDS_PER_DAY)
            == SumOfDays(facts, scope, repos, start, end)
    decreases end - start
  {
    if start == end {
      EmptySpan(facts, |facts|, scope, repos, start * SECONDS_PER_DAY);
    } else {
      DaysAddUp(facts, scope, repos, start, end - 1);
      TallySplits(facts, |facts|, scope, repos,
        start * SECONDS_PER_DAY, (end - 1) * SECONDS_PER_DAY, end * SECONDS_PER_DAY);
    }
  }

  lemma {:induction false} SpanRollsUp(facts: seq<Fact>, scope: Scope, repos: Directory, p: Period)
    requires p.start <= p.end
    ensures TallyPeriod(facts, scope, repos, p) == SumOfDays(facts, scope, repos, p.start, p.end + 1)
  {
    var end := p.end + 1;
    DaysAddUp(facts, scope, repos, p.start, end);
    assert TallyPeriod(facts, scope, repos, p)
        == Tally(facts, |facts|, scope, repos, p.start * SECONDS_PER_DAY, end * SECONDS_PER_DAY);
  }

  lemma PeriodIsNotEmpty(g: Granularity, d: LocalDate)
    requires ValidDate(d)
    ensures PeriodContaining(g, d).start <= PeriodContaining(g, d).end
  {}

  /**
   * For every date and granularity: the row of the period containing it counts exactly what the daily
   * rows of the period's days count together, and its samples are the union of theirs.
   */
  lemma {:induction false} PeriodRollsUp(
    facts: seq<Fact>, scope: Scope, repos: Directory, g: Granularity, d: LocalDate, p: Period)
    requires ValidDate(d) && p == PeriodContaining(g, d)
    ensures p.start <= p.end
    ensures TallyPeriod(facts, scope, repos, p) == SumOfDays(facts, scope, repos, p.start, p.end + 1)
  {
    PeriodIsNotEmpty(g, d);
    SpanRollsUp(facts, scope, repos, p);
  }

  // ---- Roll-up over repositories ----

  /** The sum of the rows of the first k repositories. */
  function SumOfRepositories(
    facts: seq<Fact>, n: nat, repositories: seq<int>, k: nat, repos: Directory, from: int, until: int): Totals
    requires n <= |facts| && k <= |repositories|
  {
    if k == 0 then Zero()
    else Plus(SumOfRepositories(facts, n, repositories, k - 1, repos, from, until),
              Tally(facts, n, Repository(repositories[k - 1]), repos, from, until))
  }

  predicate Dated(d: Deployment, repos: Directory, from: int, until: int) {
    d.production && d.repository in repos && from <= d.at < until
  }

  /** A repository is among the first k exactly if it is among the first k - 1 or is the last, never both. */
  lemma ListedOnce(d: Deployment, repositories: seq<int>, k: nat, repos: Directory, from: int, until: int)
    requires 0 < k <= |repositories| && Distinct(repositories)
    ensures var before := d.repository in repositories[..k - 1] && Dated(d, repos, from, until);
            var here := Selected(d, Repository(repositories[k - 1]), repos, from, until);
            && !(before && here)
            && (before || here <==> d.repository in repositories[..k] && Dated(d, repos, from, until))
  {}

  lemma {:induction false} RepositoryStep(
    facts: seq<Fact>, n: nat, repositories: seq<int>, k: nat, repos: Directory, from: int, until: int,
    before: bool, here: bool)
    requires n < |facts| && 0 < k <= |repositories| && !(before && here)
    requires here == Selected(facts[n].deployment, Repository(repositories[k - 1]), repos, from, until)
    requires SumOfRepositories(facts, n + 1, repositories, k - 1, repos, from, until)
             == Plus(SumOfRepositories(facts, n, repositories, k - 1, repos, from, until), Share(facts[n], before))
    ensures SumOfRepositories(facts, n + 1, repositories, k, repos, from, until)
            == Plus(SumOfRepositories(facts, n, repositories, k, repos, from, until), Share(facts[n], before || here))
  {
    ShareSplits(facts[n], before, here);
    PlusFour(SumOfRepositories(facts, n, repositories, k - 1, repos, from, until), Share(facts[n], before),
      Tally(facts, n, Repository(repositories[k - 1]), repos, from, until), Share(facts[n], here));
  }

  /** Adding one fact changes the sum by that fact, once, if its repository is listed, else not at all. */
  lemma {:induction false} OneMoreFact(
    facts: seq<Fact>, n: nat, repositories: seq<int>, k: nat, repos: Directory, from: int, until: int)
    requires n < |facts| && k <= |repositories| && Distinct(repositories)
    ensures SumOfRepositories(facts, n + 1, repositories, k, repos, from, until)
            == Plus(SumOfRepositories(facts, n, repositories, k, repos, from, until),
                    Share(facts[n], facts[n].deployment.repository in repositories[..k]
                                    && Dated(facts[n].deployment, repos, from, until)))
    decreases k
  {
    var d := facts[n].deployment;
    if k == 0 {
      PlusZero(Zero());
    } else {
      OneMoreFact(facts, n, repositories, k - 1, repos, from, until);
      ListedOnce(d, repositories, k, repos, from, until);
      RepositoryStep(facts, n, repositories, k, repos, from, until,
        d.repository in repositories[..k - 1] && Dated(d, repos, from, until),
        Selected(d, Repository(repositories[k - 1]), repos, from, until));
    }
  }

  lemma {:induction false} NoFacts(
    facts: seq<Fact>, repositories: seq<int>, k: nat, repos: Directory, from: int, until: int)
    requires k <= |repositories|
    ensures SumOfRepositories(facts, 0, repositories, k, repos, from, until) == Zero()
  {
    if k > 0 {
      NoFacts(facts, repositories, k - 1, repos, from, until);
      PlusZero(Zero());
    }
  }

  lemma {:induction false} TallyStep(facts: seq<Fact>, n: nat, scope: Scope, repos: Directory, from: int, until: int)
    requires n < |facts|
    ensures Tally(facts, n + 1, scope, repos, from, until)
            == if Selected(facts[n].deployment, scope, repos, from, until)
               then Plus(Tally(facts, n, scope, repos, from, until), One(facts[n]))
               else Tally(facts, n, scope, repos, from, until)
  {}

  /** A listing, without repetition, of an organization's repositories. */
  predicate RepositoriesOf(organization: int, repositories: seq<int>, repos: Directory) {
    && Distinct(repositories)
    && (forall r :: r in repositories ==> r in repos && repos[r].organization == organization)
    && forall r :: r in repos && repos[r].organization == organization ==> r in repositories
  }

  lemma {:induction false} OrganizationStep(
    facts: seq<Fact>, n: nat, organization: int, repositories: seq<int>, repos: Directory, from: int, until: int,
    sum: Totals)
    requires n < |facts| && RepositoriesOf(organization, repositories, repos)
    requires sum == Tally(facts, n, Organization(organization), repos, from, until)
    requires sum == SumOfRepositories(facts, n, repositories, |repositories|, repos, from, until)
    ensures Tally(facts, n + 1, Organization(organization), repos, from, until)
            == SumOfRepositories(facts, n + 1, repositories, |repositories|, repos, from, until)
  {
    OneMoreFact(facts, n, repositories, |repositories|, repos, from, until);
    assert repositories[..|repositories|] == repositories;
    var d := facts[n].deployment;
    assert Selected(d, Organization(organization), repos, from, until)
        == (d.repository in repositories && Dated(d, repos, from, until));
    TallyStep(facts, n, Organization(organization), repos, from, until);
    PlusZero(sum);
  }

  /** The organization's row counts exactly what its repositories' rows count together. */
  lemma {:induction false} OrganizationRollsUp(
    facts: seq<Fact>, n: nat, organization: int, repositories: seq<int>, repos: Directory, from: int, until: int)
    requires n <= |facts| && RepositoriesOf(organization, repositories, repos)
    ensures Tally(facts, n, Organization(organization), repos, from, until)
            == SumOfRepositories(facts, n, repositories, |repositories|, repos, from, until)
  {
    if n == 0 {
      NoFacts(facts, repositories, |repositories|, repos, from, until);
    } else {
      OrganizationRollsUp(facts, n - 1, organization, repositories, repos, from, until);
      OrganizationStep(facts, n - 1, organization, repositories, repos, from, until,
        Tally(facts, n - 1, Organization(organization), repos, from, until));
    }
  }

  // ---- The row that is written ----

  datatype Row = Row(
    count: nat, failures: nat, frequency: nat, failureRate: Option<nat>,
    leadP50: Option<int>, leadP90: Option<int>, mttrP50: Option<int>, mttrP90: Option<int>)

  /** A percentile of any listing of a bag of samples. */
  ghost predicate IsPercentile(value: Option<int>, bag: multiset<int>, p: real)
    requires 0.0 <= p <= 1.0
  {
    forall s: seq<int> :: multiset(s) == bag ==> value == P.Percentile(s, p)
  }

  lemma PercentileOfBag(samples: seq<int>, p: real)
    requires 0.0 <= p <= 1.0
    ensures IsPercentile(P.Percentile(samples, p), multiset(samples), p)
  {
    forall s: seq<int> | multiset(s) == multiset(samples) ensures P.Percentile(samples, p) == P.Percentile(s, p) {
      P.PercentileIgnoresOrder(samples, s, p);
    }
  }

  /** A row that reports exactly these totals over a period of so many days. */
  ghost predicate Reports(row: Row, t: Totals, days: int) {
    && row.count == t.count && row.failures == t.failures
    && days > 0 && row.frequency == HalfUp4(row.count, days)
    && row.failureRate == (if row.count == 0 then None else Some(HalfUp4(row.failures, row.count)))
    && IsPercentile(row.leadP50, t.leads, 0.5) && IsPercentile(row.leadP90, t.leads, 0.9)
    && IsPercentile(row.mttrP50, t.recoveries, 0.5) && IsPercentile(row.mttrP90, t.recoveries, 0.9)
  }

  /** What the lists and counters of the loop amount to. */
  ghost function Listed(count: int, failures: int, leads: seq<int>, recoveries: seq<int>): Totals {
    Totals(count, failures, multiset(leads), multiset(recoveries))
  }

  /** The new elements of one deployment, as lists. */
  function LeadList(d: Deployment): seq<int> {
    if HasLeadTime(d) then [d.at - d.authoredAt.value] else []
  }

  function RecoveryList(f: Fact): seq<int> {
    if IsFailure(f.deployment) && f.recoveredAt.Some? then [f.recoveredAt.value - f.deployment.at] else []
  }

  lemma ListedGrows(f: Fact, count: int, failures: int, leads: seq<int>, recoveries: seq<int>)
    ensures Listed(count + 1, if IsFailure(f.deployment) then failures + 1 else failures,
                   leads + LeadList(f.deployment), recoveries + RecoveryList(f))
            == Plus(Listed(count, failures, leads, recoveries), One(f))
  {}

  /** The loop of `write`: two sample lists and two counters. */
  method Collect(facts: seq<Deployment>, scope: Scope, repos: Directory, from: int, until: int)
    returns (count: nat, failures: nat, leads: seq<int>, recoveries: seq<int>)
    ensures Listed(count, failures, leads, recoveries) == Tally(Annotate(facts), |facts|, scope, repos, from, until)
  {
    count, failures, leads, recoveries := 0, 0, [], [];
    ghost var all := Annotate(facts);
    for i := 0 to |facts|
      invariant Listed(count, failures, leads, recoveries) == Tally(all, i, scope, repos, from, until)
    {
      var d := facts[i];
      TallyStep(all, i, scope, repos, from, until);
      if Selected(d, scope, repos, from, until) {
        ListedGrows(all[i], count, failures, leads, recoveries);
        count, failures, leads, recoveries := Observe(facts, d, all[i], count, failures, leads, recoveries);
      }
    }
  }

  /** The loop's body for one selected deployment. */
  method Observe(
    facts: seq<Deployment>, d: Deployment, ghost f: Fact, count: nat, failures: nat, leads: seq<int>,
    recoveries: seq<int>)
    returns (count': nat, failures': nat, leads': seq<int>, recoveries': seq<int>)
    requires f == Fact(d, NextSuccess(facts, |facts|, d.repository, d.at))
    ensures count' == count + 1 && failures' == if IsFailure(d) then failures + 1 else failures
    ensures leads' == leads + LeadList(d) && recoveries' == recoveries + RecoveryList(f)
  {
    count', failures', leads', recoveries' := count + 1, failures, leads, recoveries;
    if HasLeadTime(d) {
      leads' := leads + [d.at - d.authoredAt.value];
    }
    if IsFailure(d) {
      failures' := failures + 1;
      var recovered := NextSuccess(facts, |facts|, d.repository, d.at);
      if recovered.Some? {
        recoveries' := recoveries + [recovered.value - d.at];
      }
    }
  }

  /** The row `write` upserts for one scope and one period. */
  method Summarize(facts: seq<Deployment>, scope: Scope, repos: Directory, p: Period) returns (row: Row)
    requires p.start <= p.end
    ensures Reports(row, TallyPeriod(Annotate(facts), scope, repos, p), p.Days())
  {
    var count, failures, leads, recoveries :=
      Collect(facts, scope, repos, p.start * SECONDS_PER_DAY, (p.end + 1) * SECONDS_PER_DAY);
    row := MakeRow(count, failures, leads, recoveries, p.Days());
  }

  /** The arithmetic after the loop. */
  method MakeRow(count: nat, failures: nat, leads: seq<int>, recoveries: seq<int>, days: nat) returns (row: Row)
    requires days > 0
    ensures Reports(row, Listed(count, failures, leads, recoveries), days)
  {
    PercentileOfBag(leads, 0.5);
    PercentileOfBag(leads, 0.9);
    PercentileOfBag(recoveries, 0.5);
    PercentileOfBag(recoveries, 0.9);
    row := Row(count, failures, HalfUp4(count, days), if count == 0 then None else Some(HalfUp4(failures, count)),
               P.Percentile(leads, 0.5), P.Percentile(leads, 0.9),
               P.Percentile(recoveries, 0.5), P.Percentile(recoveries, 0.9));
  }

  lemma PercentilesAreOrdered(lower: Option<int>, upper: Option<int>, samples: seq<int>)
    requires IsPercentile(lower, multiset(samples), 0.5) && IsPercentile(upper, multiset(samples), 0.9)
    requires samples != []
    ensures lower.Some? && upper.Some? && lower.value <= upper.value
  {
    P.PercentileMonotone(samples, 0.5, 0.9);
  }

  /** q ten-thousandths are nearest to part / whole, halves upwards. */
  predicate NearestRate(q: nat, part: nat, whole: nat) {
    (2 * q - 1) * whole <= 20000 * part < (2 * q + 1) * whole
  }

  /** The rates of a written row: deployments per day, and failures per deployment if there are any. */
  lemma RatesAreNearest(row: Row, t: Totals, days: nat)
    requires Reports(row, t, days)
    ensures NearestRate(row.frequency, row.count, days)
    ensures row.failureRate.None? <==> row.count == 0
    ensures row.failureRate.Some? ==> NearestRate(row.failureRate.value, row.failures, row.count)
  {
    HalfUpIsNearest(row.count, days, row.frequency);
    if row.count > 0 { HalfUpIsNearest(row.failures, row.count, row.failureRate.value); }
  }

  /** In every written row, failures are a part of the count, the failure rate is a fraction, and p50 <= p90. */
  lemma RowIsCoherent(
    row: Row, facts: seq<Fact>, scope: Scope, repos: Directory, p: Period, t: Totals, leads: seq<int>,
    recoveries: seq<int>)
    requires t == TallyPeriod(facts, scope, repos, p) && Reports(row, t, p.Days())
    requires multiset(leads) == t.leads && multiset(recoveries) == t.recoveries
    ensures row.failures <= row.count
    ensures row.failureRate.Some? ==> row.failureRate.value <= 10000
    ensures leads != [] ==> row.leadP50.Some? && row.leadP90.Some? && row.leadP50.value <= row.leadP90.value
    ensures recoveries != [] ==> row.mttrP50.Some? && row.mttrP90.Some? && row.mttrP50.value <= row.mttrP90.value
  {
    FailuresAreCounted(facts, |facts|, scope, repos, p.start * SECONDS_PER_DAY, (p.end + 1) * SECONDS_PER_DAY);
    if row.count > 0 { RateIsAFraction(row.failures, row.count); }
    if leads != [] { PercentilesAreOrdered(row.leadP50, row.leadP90, leads); }
    if recoveries != [] { PercentilesAreOrdered(row.mttrP50, row.mttrP90, recoveries); }
  }

  lemma {:induction false} FailuresAreCounted(
    facts: seq<Fact>, n: nat, scope: Scope, repos: Directory, from: int, until: int)
    requires n <= |facts|
    ensures Tally(facts, n, scope, repos, from, until).failures <= Tally(facts, n, scope, repos, from, until).count
  {
    if n > 0 { FailuresAreCounted(facts, n - 1, scope, repos, from, until); }
  }

  datatype RowKey = RowKey(scope: Scope, granularity: Granularity, periodStart: int)

  /** The table holds, for this scope and period, a row that reports exactly the facts. */
  ghost predicate UpToDate(
    rows: map<RowKey, Row>, facts: seq<Fact>, scope: Scope, repos: Directory, g: Granularity, p: Period) {
    var key := RowKey(scope, g, p.start);
    key in rows && Reports(rows[key], TallyPeriod(facts, scope, repos, p), p.Days())
  }

  ghost predicate BothUpToDate(
    rows: map<RowKey, Row>, facts: seq<Fact>, repository: int, repos: Directory, g: Granularity, p: Period)
    requires repository in repos
  {
    && UpToDate(rows, facts, Repository(repository), repos, g, p)
    && UpToDate(rows, facts, Organization(repos[repository].organization), repos, g, p)
  }

  // ---- Roll-up of stored rows ----

  function StoredCount(rows: map<RowKey, Row>, scope: Scope, day: int): nat {
    var key := RowKey(scope, Daily, day);
    if key in rows then rows[key].count else 0
  }

  function StoredFailures(rows: map<RowKey, Row>, scope: Scope, day: int): nat {
    var key := RowKey(scope, Daily, day);
    if key in rows then rows[key].failures else 0
  }

  /** The sums over the stored daily rows from `start` up to but excluding `end`. */
  function SumOfCounts(rows: map<RowKey, Row>, scope: Scope, start: int, end: int): nat
    requires start <= end
    decreases end - start
  {
    if start == end then 0 else SumOfCounts(rows, scope, start, end - 1) + StoredCount(rows, scope, end - 1)
  }

  function SumOfFailures(rows: map<RowKey, Row>, scope: Scope, start: int, end: int): nat
    requires start <= end
    decreases end - start
  {
    if start == end then 0 else SumOfFailures(rows, scope, start, end - 1) + StoredFailures(rows, scope, end - 1)
  }

  /** The counts of the row, whatever its rates and percentiles. */
  predicate Counts(
    rows: map<RowKey, Row>, facts: seq<Fact>, scope: Scope, repos: Directory, g: Granularity, p: Period) {
    var key, t := RowKey(scope, g, p.start), TallyPeriod(facts, scope, repos, p);
    key in rows && rows[key].count == t.count && rows[key].failures == t.failures
  }

  predicate DayCounts(rows: map<RowKey, Row>, facts: seq<Fact>, scope: Scope, repos: Directory, day: int) {
    Counts(rows, facts, scope, repos, Daily, Period(day, day))
  }

  lemma {:induction false} StoredDaysAddUp(
    rows: map<RowKey, Row>, facts: seq<Fact>, scope: Scope, repos: Directory, start: int, end: int)
    requires start <= end && forall day :: start <= day < end ==> DayCounts(rows, facts, scope, repos, day)
    ensures SumOfDays(facts, scope, repos, start, end).count == SumOfCounts(rows, scope, start, end)
    ensures SumOfDays(facts, scope, repos, start, end).failures == SumOfFailures(rows, scope, start, end)
    decreases end - start
  {
    if start < end {
      StoredDaysAddUp(rows, facts, scope, repos, start, end - 1);
      assert DayCounts(rows, facts, scope, repos, end - 1);
    }
  }

  lemma {:induction false} StoredSpanRollsUp(
    rows: map<RowKey, Row>, facts: seq<Fact>, scope: Scope, repos: Directory, g: Granularity, p: Period)
    requires p.start <= p.end && Counts(rows, facts, scope, repos, g, p)
    requires forall day :: p.start <= day < p.end + 1 ==> DayCounts(rows, facts, scope, repos, day)
    ensures rows[RowKey(scope, g, p.start)].count == SumOfCounts(rows, scope, p.start, p.end + 1)
    ensures rows[RowKey(scope, g, p.start)].failures == SumOfFailures(rows, scope, p.start, p.end + 1)
  {
    SpanRollsUp(facts, scope, repos, p);
    StoredDaysAddUp(rows, facts, scope, repos, p.start, p.end + 1);
    SameCounts(rows, facts, scope, repos, g, p, SumOfDays(facts, scope, repos, p.start, p.end + 1));
  }

  lemma SameCounts(
    rows: map<RowKey, Row>, facts: seq<Fact>, scope: Scope, repos: Directory, g: Granularity, p: Period, sum: Totals)
    requires Counts(rows, facts, scope, repos, g, p) && TallyPeriod(facts, scope, repos, p) == sum
    ensures rows[RowKey(scope, g, p.start)].count == sum.count
    ensures rows[RowKey(scope, g, p.start)].failures == sum.failures
  {}

  /** The daily rows of all dates that share d's period are up to date. */
  ghost predicate DaysUpToDate(
    rows: map<RowKey, Row>, facts: seq<Fact>, scope: Scope, repos: Directory, g: Granularity, d: LocalDate)
    requires ValidDate(d)
  {
    forall e :: ValidDate(e) && PeriodContaining(g, e) == PeriodContaining(g, d) ==>
      UpToDate(rows, facts, scope, repos, Daily, PeriodContaining(Daily, e))
  }

  /** Every day of the period is a date of the same period, so its daily row is among those. */
  lemma {:induction false} DayOfPeriod(
    rows: map<RowKey, Row>, facts: seq<Fact>, scope: Scope, repos: Directory, g: Granularity, d: LocalDate, day: int)
    requires ValidDate(d) && PeriodContaining(g, d).start <= day <= PeriodContaining(g, d).end
    requires DaysUpToDate(rows, facts, scope, repos, g, d)
    ensures DayCounts(rows, facts, scope, repos, day)
  {
    var e := EveryDayIsADate(day);
    PeriodsPartitionTheCalendar(g, d, e);
  }

  /**
   * For the stored table: if the row of a period and the daily rows of all its dates are up to date, the
   * period's counts are the sums of theirs.
   */
  lemma {:induction false} StoredRowsRollUp(
    rows: map<RowKey, Row>, facts: seq<Fact>, scope: Scope, repos: Directory, g: Granularity, d: LocalDate, p: Period)
    requires ValidDate(d) && p == PeriodContaining(g, d) && UpToDate(rows, facts, scope, repos, g, p)
    requires DaysUpToDate(rows, facts, scope, repos, g, d)
    ensures p.start <= p.end
    ensures rows[RowKey(scope, g, p.start)].count == SumOfCounts(rows, scope, p.start, p.end + 1)
    ensures rows[RowKey(scope, g, p.start)].failures == SumOfFailures(rows, scope, p.start, p.end + 1)
  {
    PeriodIsNotEmpty(g, d);
    forall day | p.start <= day < p.end + 1 ensures DayCounts(rows, facts, scope, repos, day) {
      DayOfPeriod(rows, facts, scope, repos, g, d, day);
    }
    StoredSpanRollsUp(rows, facts, scope, repos, g, p);
  }

  function OfGranularity<T>(g: Granularity, daily: T, weekly: T, monthly: T): T {
    match g
    case Daily => daily
    case Weekly => weekly
    case Monthly => monthly
  }

  /** The `dora_metrics` table. */
  class MetricTable {
    var rows: map<RowKey, Row>

    constructor ()
      ensures rows == map[]
    {
      rows := map[];
    }

    /**
     * `recompute`: for each granularity, the repository's and the organization's row for the date.
     * A repository that is missing or deleted is an error that changes nothing.
     */
    method Recompute(
      stored: seq<StoredDeployment>, repository: int, repos: Directory, d: LocalDate) returns (done: bool)
      requires ValidDate(d)
      modifies this
      ensures done <==> repository in repos && !repos[repository].deleted
      ensures !done ==> rows == old(rows)
      ensures done ==>
                forall g :: BothUpToDate(rows, Annotate(LoadAll(stored)), repository, repos, g, PeriodContaining(g, d))
      ensures forall key :: key in old(rows) && key.periodStart != PeriodContaining(key.granularity, d).start ==>
                key in rows && rows[key] == old(rows)[key]
    {
      done := repository in repos && !repos[repository].deleted;
      if done {
        forall g ensures PeriodContaining(g, d).start <= PeriodContaining(g, d).end { PeriodIsNotEmpty(g, d); }
        WriteAll(LoadAll(stored), repository, repos,
          PeriodContaining(Daily, d), PeriodContaining(Weekly, d), PeriodContaining(Monthly, d));
      }
    }

    /** The loop over the granularities, for any choice of non-empty periods. */
    method WriteAll(
      facts: seq<Deployment>, repository: int, repos: Directory, daily: Period, weekly: Period, monthly: Period)
      requires repository in repos
      requires daily.start <= daily.end && weekly.start <= weekly.end && monthly.start <= monthly.end
      modifies this
      ensures BothUpToDate(rows, Annotate(facts), repository, repos, Daily, daily)
      ensures BothUpToDate(rows, Annotate(facts), repository, repos, Weekly, weekly)
      ensures BothUpToDate(rows, Annotate(facts), repository, repos, Monthly, monthly)
      ensures forall key :: key in old(rows) ==>
                || key.periodStart == OfGranularity(key.granularity, daily, weekly, monthly).start
                || (key in rows && rows[key] == old(rows)[key])
    {
      WriteBoth(facts, repository, repos, Daily, daily);
      WriteBoth(facts, repository, repos, Weekly, weekly);
      WriteBoth(facts, repository, repos, Monthly, monthly);
    }

    method WriteBoth(facts: seq<Deployment>, repository: int, repos: Directory, g: Granularity, p: Period)
      requires repository in repos && p.start <= p.end
      modifies this
      ensures BothUpToDate(rows, Annotate(facts), repository, repos, g, p)
      ensures forall key :: key in old(rows) && (key.granularity != g || key.periodStart != p.start) ==>
                key in rows && rows[key] == old(rows)[key]
    {
      Write(facts, Repository(repository), repos, g, p);
      Write(facts, Organization(repos[repository].organization), repos, g, p);
    }

    /** Upserts one row and touches no other. */
    method Write(facts: seq<Deployment>, scope: Scope, repos: Directory, g: Granularity, p: Period)
      requires p.start <= p.end
      modifies this
      ensures UpToDate(rows, Annotate(facts), scope, repos, g, p)
      ensures var key := RowKey(scope, g, p.start); rows == old(rows)[key := rows[key]]
    {
      var row := Summarize(facts, scope, repos, p);
      rows := rows[RowKey(scope, g, p.start) := row];
    }
  }
}
