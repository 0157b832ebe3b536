/**
 * The webhook delivery queue: receive with dedupe, claim with a bounded number of attempts, apply and
 * mark in one transaction, and recovery of interrupted deliveries when a processor starts.
 */
module Webhooks {
  import opened Basics

  datatype Status = Received | Processing | Processed | Failed | Ignored

  /** `scoped` is false for installation events, whose effects are not part of the marking transaction. */
  datatype Delivery = Delivery(githubId: int, scoped: bool, valid: bool, status: Status, attempts: nat)

  type Processor = nat

  const MAX_ATTEMPTS: nat := 5

  /** Rows in order of arrival; `working` says which row each live processor has claimed. */
  datatype State = State(rows: seq<Delivery>, working: map<Processor, nat>, facts: multiset<int>)

  const INIT := State([], map[], multiset{})

  datatype Step =
    | Receive(githubId: int, scoped: bool, valid: bool)
    | Claim(who: Processor)
    | Apply(who: Processor, handled: bool)
    | Untracked(who: Processor)
    | Fail(who: Processor)
    | Abandon(who: Processor)
    | Restart(who: Processor)

  predicate Known(rows: seq<Delivery>, githubId: int) {
    exists i :: 0 <= i < |rows| && rows[i].githubId == githubId
  }

  predicate Claimable(d: Delivery) {
    (d.status == Received || d.status == Failed) && d.valid && d.attempts < MAX_ATTEMPTS
  }

  predicate IsNext(rows: seq<Delivery>, r: nat) {
    r < |rows| && Claimable(rows[r]) && forall q :: 0 <= q < r ==> !Claimable(rows[q])
  }

  function Admit(rows: seq<Delivery>, githubId: int, scoped: bool, valid: bool): seq<Delivery> {
    if Known(rows, githubId) then rows
    else rows + [Delivery(githubId, scoped, valid, if valid then Received else Ignored, 0)]
  }

  function Take(rows: seq<Delivery>, r: nat): seq<Delivery>
    requires r < |rows|
  {
    rows[r := rows[r].(status := Processing, attempts := rows[r].attempts + 1)]
  }

  function Mark(rows: seq<Delivery>, r: nat, status: Status): seq<Delivery>
    requires r < |rows|
  {
    rows[r := rows[r].(status := status)]
  }

  /** The update a starting processor runs before its first tick. */
  function ResetInterrupted(rows: seq<Delivery>): (rows': seq<Delivery>)
    ensures |rows'| == |rows|
    ensures forall i :: 0 <= i < |rows| ==>
              rows'[i] == if rows[i].status == Processing then rows[i].(status := Failed) else rows[i]
  {
    if rows == [] then []
    else
      var d := rows[0];
      [if d.status == Processing then d.(status := Failed) else d] + ResetInterrupted(rows[1..])
  }

  predicate Busy(s: State, p: Processor) {
    p in s.working && s.working[p] < |s.rows|
  }

  predicate Enabled(s: State, step: Step) {
    match step
    case Receive(_, _, _) => true
    case Claim(p) => p !in s.working && exists r :: 0 <= r < |s.rows| && IsNext(s.rows, r)
    case Untracked(p) => Busy(s, p) && s.rows[s.working[p]].scoped
    case Restart(p) => p !in s.working
    case _ => Busy(s, step.who)
  }

  function Next(rows: seq<Delivery>): nat
    requires exists r :: 0 <= r < |rows| && IsNext(rows, r)
  {
    var r: nat :| r < |rows| && IsNext(rows, r);
    r
  }

  /** Applying a scoped delivery commits its facts and its new status together, or neither. */
  function Perform(s: State, step: Step): State
    requires Enabled(s, step)
  {
    match step
    case Receive(githubId, scoped, valid) => s.(rows := Admit(s.rows, githubId, scoped, valid))
    case Claim(p) =>
      var r := Next(s.rows);
      s.(rows := Take(s.rows, r), working := s.working[p := r])
    case Apply(p, handled) =>
      var r := s.working[p];
      s.(rows := Mark(s.rows, r, if handled then Processed else Ignored),
         working := s.working - {p},
         facts := if handled && s.rows[r].scoped then s.facts + multiset{s.rows[r].githubId} else s.facts)
    case Untracked(p) => s.(rows := Mark(s.rows, s.working[p], Ignored), working := s.working - {p})
    case Fail(p) => s.(rows := Mark(s.rows, s.working[p], Failed), working := s.working - {p})
    case Abandon(p) => s.(working := s.working - {p})
    case Restart(p) => s.(rows := ResetInterrupted(s.rows))
  }

  // ---- Invariant ----

  ghost predicate RowOk(d: Delivery) {
    && d.attempts <= MAX_ATTEMPTS
    && (!d.valid ==> d.status == Ignored && d.attempts == 0)
    && (d.status == Received ==> d.attempts == 0)
  }

  ghost predicate RowsOk(s: State) {
    && (forall i :: 0 <= i < |s.rows| ==> RowOk(s.rows[i]))
    && (forall i, j :: 0 <= i < j < |s.rows| ==> s.rows[i].githubId != s.rows[j].githubId)
  }

  /** Whatever happens to the row, nobody else can claim it: it is in processing or out of attempts. */
  predicate Guarded(d: Delivery) {
    d.status == Processing || (d.status == Failed && d.attempts == MAX_ATTEMPTS)
  }

  /** A row somebody may have in hand. */
  predicate InHand(rows: seq<Delivery>, r: nat) {
    r < |rows| && rows[r].valid && rows[r].status != Received && (rows[r].scoped ==> Guarded(rows[r]))
  }

  predicate SharesScoped(s: State, p: Processor, q: Processor) {
    Busy(s, p) && Busy(s, q) && s.working[p] == s.working[q] && s.rows[s.working[p]].scoped
  }

  /** A scoped row in hand is guarded, and in one hand. */
  ghost predicate WorkingOk(s: State) {
    && (forall p :: p in s.working ==> InHand(s.rows, s.working[p]))
    && (forall p, q :: SharesScoped(s, p, q) ==> p == q)
  }

  /** A scoped delivery has its facts exactly when it is marked processed. */
  predicate FactOk(facts: multiset<int>, d: Delivery) {
    facts[d.githubId] == if d.scoped && d.status == Processed then 1 else 0
  }

  ghost predicate FactsOk(s: State) {
    && (forall i :: 0 <= i < |s.rows| ==> FactOk(s.facts, s.rows[i]))
    && (forall id :: id in s.facts ==> Known(s.rows, id))
  }

  ghost predicate Inv(s: State) {
    RowsOk(s) && WorkingOk(s) && FactsOk(s)
  }

  /** p has a delivery in hand that a restart would let somebody else apply as well. */
  predicate Exposed(s: State, p: Processor) {
    Busy(s, p) && s.rows[s.working[p]].scoped && s.rows[s.working[p]].attempts < MAX_ATTEMPTS
  }

  /** A processor starts only while no other one has a scoped delivery in hand that has attempts left. */
  ghost predicate SafeStart(s: State, step: Step) {
    step.Restart? ==> forall p :: p in s.working ==> !Exposed(s, p)
  }

  /** Rows that keep their place and their id keep every id known. */
  lemma IdsStayKnown(rows: seq<Delivery>, rows': seq<Delivery>)
    requires |rows| <= |rows'| && forall i :: 0 <= i < |rows| ==> rows'[i].githubId == rows[i].githubId
    ensures forall id :: Known(rows, id) ==> Known(rows', id)
  {}

  lemma ReceiveKeepsWorking(s: State, step: Step)
    requires Inv(s) && Enabled(s, step) && step.Receive?
    ensures WorkingOk(Perform(s, step))
  {
    var s' := Perform(s, step);
    forall p | p in s'.working ensures InHand(s'.rows, s'.working[p]) {
      assert InHand(s.rows, s.working[p]);
    }
    forall p, q | SharesScoped(s', p, q) ensures p == q {
      assert SharesScoped(s, p, q);
    }
  }

  lemma ReceiveKeepsInv(s: State, step: Step)
    requires Inv(s) && Enabled(s, step) && step.Receive?
    ensures Inv(Perform(s, step))
  {
    var s' := Perform(s, step);
    IdsStayKnown(s.rows, s'.rows);
    ReceiveKeepsWorking(s, step);
    if !Known(s.rows, step.githubId) {
      var d := s'.rows[|s.rows|];
      assert step.githubId !in s.facts;
      assert RowOk(d) && FactOk(s'.facts, d);
      assert s'.rows == s.rows + [d];
    }
  }

  lemma ClaimKeepsWorking(s: State, step: Step)
    requires Inv(s) && Enabled(s, step) && step.Claim?
    ensures WorkingOk(Perform(s, step))
  {
    var s' := Perform(s, step);
    forall p | p in s'.working && p != step.who ensures InHand(s'.rows, s'.working[p]) {
      assert InHand(s.rows, s.working[p]);
    }
    forall p, q | SharesScoped(s', p, q) ensures p == q {
      assert p != step.who && q != step.who ==> SharesScoped(s, p, q);
      assert p in s.working ==> InHand(s.rows, s.working[p]);
      assert q in s.working ==> InHand(s.rows, s.working[q]);
    }
  }

  lemma ClaimKeepsInv(s: State, step: Step)
    requires Inv(s) && Enabled(s, step) && step.Claim?
    ensures Inv(Perform(s, step))
  {
    IdsStayKnown(s.rows, Perform(s, step).rows);
    ClaimKeepsWorking(s, step);
  }

  ghost predicate Finishes(step: Step) {
    step.Apply? || step.Untracked? || step.Fail? || step.Abandon?
  }

  lemma FinishKeepsRows(s: State, step: Step)
    requires Inv(s) && Enabled(s, step) && Finishes(step)
    ensures RowsOk(Perform(s, step))
  {
    assert InHand(s.rows, s.working[step.who]) && RowOk(s.rows[s.working[step.who]]);
  }

  lemma FinishKeepsWorking(s: State, step: Step)
    requires Inv(s) && Enabled(s, step) && Finishes(step)
    ensures WorkingOk(Perform(s, step))
  {
    var s', who := Perform(s, step), step.who;
    forall p | p in s'.working ensures InHand(s'.rows, s'.working[p]) {
      assert InHand(s.rows, s.working[p]) && !SharesScoped(s, p, who);
    }
    forall p, q | SharesScoped(s', p, q) ensures p == q {
      assert SharesScoped(s, p, q);
    }
  }

  lemma FinishKeepsFacts(s: State, step: Step)
    requires Inv(s) && Enabled(s, step) && Finishes(step)
    ensures FactsOk(Perform(s, step))
  {
    var s', r := Perform(s, step), s.working[step.who];
    IdsStayKnown(s.rows, s'.rows);
    assert InHand(s.rows, r);
    forall i | 0 <= i < |s'.rows| ensures FactOk(s'.facts, s'.rows[i]) {
      assert FactOk(s.facts, s.rows[i]);
    }
    assert Known(s'.rows, s.rows[r].githubId) by { assert s'.rows[r].githubId == s.rows[r].githubId; }
  }

  lemma {:induction false} RestartKeepsInv(s: State, step: Step)
    requires Inv(s) && Enabled(s, step) && step.Restart? && SafeStart(s, step)
    ensures Inv(Perform(s, step))
    ensures forall i :: 0 <= i < |s.rows| ==> Perform(s, step).rows[i].status != Processing
  {
    var s' := Perform(s, step);
    IdsStayKnown(s.rows, s'.rows);
    forall i | 0 <= i < |s'.rows| ensures RowOk(s'.rows[i]) && FactOk(s.facts, s'.rows[i]) {
      assert RowOk(s.rows[i]) && FactOk(s.facts, s.rows[i]);
    }
    RestartKeepsWorking(s, step);
  }

  lemma {:induction false} RestartKeepsWorking(s: State, step: Step)
    requires Inv(s) && Enabled(s, step) && step.Restart? && SafeStart(s, step)
    ensures WorkingOk(Perform(s, step))
  {
    var s' := Perform(s, step);
    forall p | p in s'.working ensures InHand(s'.rows, s'.working[p]) {
      assert InHand(s.rows, s.working[p]) && RowOk(s.rows[s.working[p]]) && !Exposed(s, p);
    }
    forall p, q | SharesScoped(s', p, q) ensures p == q {
      assert SharesScoped(s, p, q);
    }
  }

  lemma StepKeepsInv(s: State, step: Step)
    requires Inv(s) && Enabled(s, step) && SafeStart(s, step)
    ensures Inv(Perform(s, step))
  {
    match step
    case Receive(_, _, _) => ReceiveKeepsInv(s, step);
    case Claim(_) => ClaimKeepsInv(s, step);
    case Restart(_) => RestartKeepsInv(s, step);
    case _ =>
      FinishKeepsRows(s, step);
      FinishKeepsWorking(s, step);
      FinishKeepsFacts(s, step);
  }

  // ---- Whole runs ----

  ghost predicate Follows(s: State, step: Step, s': State) {
    Enabled(s, step) && s' == Perform(s, step)
  }

  ghost predicate Run(states: seq<State>, steps: seq<Step>) {
    && |states| == |steps| + 1
    && states[0] == INIT
    && forall i :: 0 <= i < |steps| ==> Follows(states[i], steps[i], states[i + 1])
  }

  ghost predicate SafeStarts(states: seq<State>, steps: seq<Step>)
    requires Run(states, steps)
  {
    forall i :: 0 <= i < |steps| ==> SafeStart(states[i], steps[i])
  }

  lemma {:induction false} RunKeepsInv(states: seq<State>, steps: seq<Step>, n: nat)
    requires Run(states, steps) && SafeStarts(states, steps) && n < |states|
    ensures Inv(states[n])
  {
    if n > 0 {
      var k := n - 1;
      RunKeepsInv(states, steps, k);
      assert Follows(states[k], steps[k], states[k + 1]) && SafeStart(states[k], steps[k]);
      StepKeepsInv(states[k], steps[k]);
    }
  }

  /**
   * For every run in which processors start safely: a delivery id has its facts committed at most once
   * and only from a validly signed delivery marked processed; no row is tried more than five times;
   * ids are unique.
   */
  lemma AppliedAtMostOnce(states: seq<State>, steps: seq<Step>, n: nat)
    requires Run(states, steps) && SafeStarts(states, steps) && n < |states|
    ensures var s := states[n];
            && (forall id :: s.facts[id] <= 1)
            && (forall i :: 0 <= i < |s.rows| ==>
                  && s.rows[i].attempts <= 5
                  && (s.facts[s.rows[i].githubId] == 1 <==> s.rows[i].scoped && s.rows[i].status == Processed)
                  && (s.facts[s.rows[i].githubId] == 1 ==> s.rows[i].valid))
            && (forall i, j :: 0 <= i < j < |s.rows| ==> s.rows[i].githubId != s.rows[j].githubId)
  {
    RunKeepsInv(states, steps, n);
    var s := states[n];
    forall id ensures s.facts[id] <= 1 {
      if id in s.facts {
        var i :| 0 <= i < |s.rows| && s.rows[i].githubId == id;
      }
    }
    forall i | 0 <= i < |s.rows| ensures s.facts[s.rows[i].githubId] == 1 ==> s.rows[i].valid {
      assert RowOk(s.rows[i]);
    }
  }

  /** Nothing is in hand, nothing is claimable, and no interrupted row is waiting for a restart. */
  ghost predicate Quiescent(s: State) {
    && s.working == map[]
    && (forall i :: 0 <= i < |s.rows| ==> !Claimable(s.rows[i]) && s.rows[i].status != Processing)
  }

  lemma QuiescentMeansDecided(states: seq<State>, steps: seq<Step>, n: nat, i: nat)
    requires Run(states, steps) && SafeStarts(states, steps) && n < |states|
    requires Quiescent(states[n]) && i < |states[n].rows| && states[n].rows[i].valid
    ensures var d := states[n].rows[i];
            d.status == Processed || d.status == Ignored || (d.status == Failed && d.attempts == 5)
  {
    RunKeepsInv(states, steps, n);
    assert RowOk(states[n].rows[i]);
  }

  // ---- An unsafe start can always end in two commits ----

  /** The steps lead from s to s'. */
  ghost predicate Leads(s: State, steps: seq<Step>, s': State)
    decreases |steps|
  {
    if steps == [] then s' == s
    else Enabled(s, steps[0]) && Leads(Perform(s, steps[0]), steps[1..], s')
  }

  lemma {:induction false} LeadsOn(s: State, first: Step, rest: seq<Step>, s': State)
    requires Enabled(s, first) && Leads(Perform(s, first), rest, s')
    ensures Leads(s, [first] + rest, s')
  {
    assert ([first] + rest)[1..] == rest;
  }

  /** A run followed by steps that lead on is a run. */
  lemma {:induction false} RunLeadsOn(states: seq<State>, steps: seq<Step>, more: seq<Step>, s': State)
    returns (states': seq<State>)
    requires Run(states, steps) && Leads(states[|steps|], more, s')
    ensures Run(states', steps + more) && states'[..|states|] == states && states'[|steps + more|] == s'
    decreases |more|
  {
    if more == [] {
      assert steps + more == steps;
      states' := states;
    } else {
      var next := Perform(states[|steps|], more[0]);
      var states1, steps1 := states + [next], steps + [more[0]];
      assert forall i :: 0 <= i < |steps1| ==> Follows(states1[i], steps1[i], states1[i + 1]) by {
        assert forall i :: 0 <= i < |steps| ==> Follows(states[i], steps[i], states[i + 1]);
      }
      states' := RunLeadsOn(states1, steps1, more[1..], s');
      assert steps1 + more[1..] == steps + more;
      assert states'[..|states|] == states'[..|states1|][..|states|] == states;
    }
  }

  lemma {:induction false} SomebodyIsFree(busy: set<Processor>) returns (q: Processor)
    ensures q !in busy && forall p :: p in busy ==> p < q
    decreases |busy|
  {
    if p: Processor :| p in busy {
      var r := SomebodyIsFree(busy - {p});
      q := if p < r then r else p + 1;
      forall x | x in busy ensures x < q {
        assert x == p || x in busy - {p};
      }
    } else {
      q := 0;
    }
  }

  /** p has the row r of a scoped delivery in hand while anybody may claim it again. */
  ghost predicate Doubly(s: State, p: Processor, r: nat) {
    && p in s.working && s.working[p] == r && r < |s.rows|
    && s.rows[r].scoped && Claimable(s.rows[r]) && s.facts[s.rows[r].githubId] == 0
  }

  /** Two processors with the same scoped row in hand: both commit. */
  lemma {:induction false} BothCommit(
    s: State, p: Processor, q: Processor, r: nat) returns (steps: seq<Step>, s': State)
    requires p in s.working && q in s.working && p != q && s.working[p] == r && s.working[q] == r
    requires r < |s.rows| && s.rows[r].scoped && s.facts[s.rows[r].githubId] == 0
    ensures Leads(s, steps, s') && s'.facts[s.rows[r].githubId] == 2
  {
    var s1 := Perform(s, Apply(p, true));
    s' := Perform(s1, Apply(q, true));
    assert Leads(s', [], s');
    LeadsOn(s1, Apply(q, true), [], s');
    LeadsOn(s, Apply(p, true), [Apply(q, true)] + [], s');
    steps := [Apply(p, true)] + ([Apply(q, true)] + []);
  }

  predicate ClaimableBefore(rows: seq<Delivery>, r: nat, q: nat) {
    q < r && q < |rows| && Claimable(rows[q])
  }

  function Ahead(rows: seq<Delivery>, r: nat): set<nat> {
    set q: nat | q < r && ClaimableBefore(rows, r, q)
  }

  lemma {:induction false} FirstClaimable(rows: seq<Delivery>, r: nat) returns (n: nat)
    requires r < |rows| && Claimable(rows[r])
    ensures n <= r && IsNext(rows, n)
    decreases r
  {
    if q: nat :| ClaimableBefore(rows, r, q) {
      n := FirstClaimable(rows, q);
    } else {
      forall q | 0 <= q < r ensures !Claimable(rows[q]) {
        assert !ClaimableBefore(rows, r, q);
      }
      n := r;
    }
  }

  /** Whatever older deliveries are claimable, a free processor gets past them to row r. */
  lemma {:induction false} ReclaimedTwice(
    s: State, p: Processor, q: Processor, r: nat) returns (steps: seq<Step>, s': State)
    requires Doubly(s, p, r) && q !in s.working
    ensures Leads(s, steps, s') && s'.facts[s.rows[r].githubId] == 2
    decreases |Ahead(s.rows, r)|
  {
    var n := FirstClaimable(s.rows, r);
    var s1 := Perform(s, Claim(q));
    assert s1 == s.(rows := Take(s.rows, n), working := s.working[q := n]);
    if n == r {
      steps, s' := BothCommit(s1, p, q, r);
    } else {
      var s2 := Perform(s1, Abandon(q));
      assert n in Ahead(s.rows, r) && n !in Ahead(s2.rows, r) && Ahead(s2.rows, r) <= Ahead(s.rows, r);
      SmallerSet(Ahead(s2.rows, r), Ahead(s.rows, r), n);
      steps, s' := ReclaimedTwice(s2, p, q, r);
      LeadsOn(s1, Abandon(q), steps, s');
      steps := [Abandon(q)] + steps;
    }
    LeadsOn(s, Claim(q), steps, s');
    steps := [Claim(q)] + steps;
  }

  /**
   * The condition is exact: whenever a processor has a scoped delivery with attempts left in hand, a
   * second processor can start, reset it, claim it, and both commit its facts.
   */
  lemma {:induction false} UnsafeStartAppliesTwice(states: seq<State>, steps: seq<Step>, p: Processor)
    returns (states': seq<State>, steps': seq<Step>, q: Processor)
    requires Run(states, steps) && SafeStarts(states, steps) && Exposed(states[|steps|], p)
    ensures |steps'| > |steps| && steps'[..|steps|] == steps && steps'[|steps|] == Restart(q)
    ensures Run(states', steps') && states'[..|states|] == states
    ensures var s := states[|steps|]; states'[|steps'|].facts[s.rows[s.working[p]].githubId] == 2
  {
    var s := states[|steps|];
    RunKeepsInv(states, steps, |steps|);
    q := SomebodyIsFree(s.working.Keys);
    var r := s.working[p];
    var s1 := Perform(s, Restart(q));
    assert InHand(s.rows, r) && FactOk(s.facts, s.rows[r]);
    assert Doubly(s1, p, r);
    var rest, s' := ReclaimedTwice(s1, p, q, r);
    LeadsOn(s, Restart(q), rest, s');
    states' := RunLeadsOn(states, steps, [Restart(q)] + rest, s');
    steps' := steps + ([Restart(q)] + rest);
  }

  /** It happens: one delivery, claimed by one processor while another starts. */
  lemma {:induction false} SecondProcessorAppliesTwice()
    ensures exists states: seq<State>, steps: seq<Step> :: Run(states, steps) && states[|steps|].facts[7] == 2
  {
    var d := Delivery(7, true, true, Received, 0);
    var s1, s2 := State([d], map[], multiset{}), State(Take([d], 0), map[0 := 0], multiset{});
    assert !Known([], 7) && IsNext([d], 0);
    assert Follows(INIT, Receive(7, true, true), s1) && Follows(s1, Claim(0), s2);
    var states, steps, q := UnsafeStartAppliesTwice([INIT, s1, s2], [Receive(7, true, true), Claim(0)], 0);
  }

  // ---- The processor's own loop ----

  /** What applying one claimed delivery comes to. */
  datatype Outcome = Handled | Unhandled | Errored | Interrupted

  function StatusAfter(outcome: Outcome): Status {
    match outcome
    case Handled => Processed
    case Unhandled => Ignored
    case Errored => Failed
    case Interrupted => Processing
  }

  /** The step of the queue's protocol that an outcome is. */
  function StepOf(outcome: Outcome, p: Processor): Step {
    match outcome
    case Handled => Apply(p, true)
    case Unhandled => Apply(p, false)
    case Errored => Fail(p)
    case Interrupted => Abandon(p)
  }

  /** From these tables, with nothing in hand, a claim and then the step of the outcome lead to those. */
  ghost predicate ClaimsAndFinishes(
    rows: seq<Delivery>, facts: multiset<int>, outcome: Outcome, rows': seq<Delivery>, facts': multiset<int>) {
    var s := State(rows, map[], facts);
    Enabled(s, Claim(0)) && var s1 := Perform(s, Claim(0));
    Enabled(s1, StepOf(outcome, 0)) && Perform(s1, StepOf(outcome, 0)) == State(rows', map[], facts')
  }

  /** One more attempt, and the status the outcome dictates; an error can be retried below five attempts. */
  predicate Ends(d: Delivery, d': Delivery, outcome: Outcome) {
    && d' == d.(status := d'.status, attempts := d.attempts + 1)
    && match outcome
       case Handled => d'.status == Processed
       case Unhandled => d'.status == Ignored
       case Errored => d'.status == Failed && (Claimable(d') <==> d.valid && d.attempts + 1 < 5)
       case Interrupted => d'.status == Processing
  }

  /** An iteration over the row that is next is the protocol's claim, followed by its step for the outcome. */
  lemma IterationIsTwoSteps(rows: seq<Delivery>, facts: multiset<int>, r: nat, outcome: Outcome)
    requires IsNext(rows, r)
    ensures var rows' := Mark(Take(rows, r), r, StatusAfter(outcome));
            var handled := if outcome == Handled && rows[r].scoped then multiset{rows[r].githubId} else multiset{};
            ClaimsAndFinishes(rows, facts, outcome, rows', facts + handled) && Ends(rows[r], rows'[r], outcome)
  {
    var s := State(rows, map[], facts);
    assert Next(rows) == r;
    assert Perform(s, Claim(0)) == State(Take(rows, r), map[0 := r], facts);
    assert map[0 := r] - {0} == map[];
    assert facts + multiset{} == facts;
  }

  /** The tables of a queue whose processor has nothing in hand. */
  ghost predicate TablesOk(rows: seq<Delivery>, facts: multiset<int>) {
    Inv(State(rows, map[], facts))
  }

  /** The same delivery, tried at least as often, and untouched if nobody may claim it. */
  predicate Advances(d: Delivery, d': Delivery) {
    && d'.githubId == d.githubId && d'.scoped == d.scoped && d'.valid == d.valid && d'.attempts >= d.attempts
    && (!Claimable(d) ==> d' == d)
  }

  predicate AllAdvance(rows: seq<Delivery>, rows': seq<Delivery>) {
    |rows| <= |rows'| && forall i :: 0 <= i < |rows| ==> Advances(rows[i], rows'[i])
  }

  /** No delivery is lost, and deliveries and facts that matched still do. */
  ghost predicate Progress(rows: seq<Delivery>, facts: multiset<int>, rows': seq<Delivery>, facts': multiset<int>) {
    AllAdvance(rows, rows') && (TablesOk(rows, facts) ==> TablesOk(rows', facts'))
  }

  lemma ProgressGoesOn(
    rows: seq<Delivery>, facts: multiset<int>, mid: seq<Delivery>, facts1: multiset<int>, rows': seq<Delivery>,
    facts2: multiset<int>)
    requires Progress(rows, facts, mid, facts1) && Progress(mid, facts1, rows', facts2)
    ensures Progress(rows, facts, rows', facts2)
  {
    forall i | 0 <= i < |rows| ensures Advances(rows[i], rows'[i]) {
      assert Advances(rows[i], mid[i]) && Advances(mid[i], rows'[i]);
    }
  }

  lemma IterationProgresses(
    rows: seq<Delivery>, facts: multiset<int>, r: nat, outcome: Outcome, rows': seq<Delivery>, facts': multiset<int>)
    requires Iterates(rows, facts, r, outcome, rows', facts')
    ensures Progress(rows, facts, rows', facts')
  {
    if TablesOk(rows, facts) {
      var s := State(rows, map[], facts);
      StepKeepsInv(s, Claim(0));
      StepKeepsInv(Perform(s, Claim(0)), StepOf(outcome, 0));
    }
  }

  lemma ReceiptProgresses(rows: seq<Delivery>, facts: multiset<int>, arrival: Arrival)
    ensures Progress(rows, facts, Admit(rows, arrival.githubId, arrival.scoped, arrival.valid), facts)
  {
    if TablesOk(rows, facts) {
      ReceiveKeepsInv(State(rows, map[], facts), Receive(arrival.githubId, arrival.scoped, arrival.valid));
    }
  }

  function Weight(d: Delivery): nat {
    if Claimable(d) then MAX_ATTEMPTS - d.attempts else 0
  }

  /** Claims the queue can still make. */
  function Remaining(rows: seq<Delivery>): nat {
    if rows == [] then 0 else Remaining(rows[..|rows| - 1]) + Weight(rows[|rows| - 1])
  }

  lemma {:induction false} RemainingUpdate(rows: seq<Delivery>, r: nat, d: Delivery)
    requires r < |rows|
    ensures Remaining(rows[r := d]) + Weight(rows[r]) == Remaining(rows) + Weight(d)
    decreases |rows|
  {
    var n := |rows| - 1;
    if r == n {
      assert rows[r := d][..n] == rows[..n];
    } else {
      RemainingUpdate(rows[..n], r, d);
      assert rows[r := d][..n] == rows[..n][r := d];
    }
  }

  /** What one iteration over row r does, with facts exactly if a scoped delivery was handled. */
  ghost predicate Iterates(
    rows: seq<Delivery>, facts: multiset<int>, r: nat, outcome: Outcome, rows': seq<Delivery>, facts': multiset<int>) {
    && IsNext(rows, r) && |rows'| == |rows| && rows' == rows[r := rows'[r]] && Ends(rows[r], rows'[r], outcome)
    && facts' == (if outcome == Handled && rows[r].scoped then facts + multiset{rows[r].githubId} else facts)
    && ClaimsAndFinishes(rows, facts, outcome, rows', facts')
    && Remaining(rows') < Remaining(rows)
  }

  lemma IterationIs(rows: seq<Delivery>, facts: multiset<int>, r: nat, outcome: Outcome, facts': multiset<int>)
    requires IsNext(rows, r)
    requires facts' == if outcome == Handled && rows[r].scoped then facts + multiset{rows[r].githubId} else facts
    ensures Iterates(rows, facts, r, outcome, Mark(Take(rows, r), r, StatusAfter(outcome)), facts')
  {
    var rows' := Mark(Take(rows, r), r, StatusAfter(outcome));
    IterationIsTwoSteps(rows, facts, r, outcome);
    assert facts + multiset{} == facts;
    assert rows' == rows[r := rows'[r]];
    RemainingUpdate(rows, r, rows'[r]);
  }

  datatype Arrival = Arrival(githubId: int, scoped: bool, valid: bool)

  class Queue {
    var rows: seq<Delivery>
    var facts: multiset<int>

    constructor ()
      ensures rows == [] && facts == multiset{}
    {
      rows, facts := [], multiset{};
    }

    /** INSERT ... ON CONFLICT DO NOTHING; an invalid signature is stored as ignored. */
    method Receive(githubId: int, scoped: bool, valid: bool) returns (inserted: bool)
      modifies this`rows
      ensures inserted == !Known(old(rows), githubId)
      ensures rows == Admit(old(rows), githubId, scoped, valid)
      ensures State(rows, map[], facts)
              == Perform(State(old(rows), map[], facts), Step.Receive(githubId, scoped, valid))
    {
      inserted := !Known(rows, githubId);
      if inserted {
        rows := rows + [Delivery(githubId, scoped, valid, if valid then Received else Ignored, 0)];
      }
    }

    /** The oldest claimable row, taken; None exactly when nothing is claimable. */
    method ClaimDelivery() returns (found: bool, r: nat)
      modifies this`rows
      ensures found <==> exists q :: 0 <= q < |old(rows)| && Claimable(old(rows)[q])
      ensures found ==> IsNext(old(rows), r) && rows == Take(old(rows), r)
      ensures found ==>
                var d := old(rows)[r];
                && d.valid && d.attempts < 5 && (d.status == Received || d.status == Failed)
                && rows[r] == d.(status := Processing, attempts := d.attempts + 1)
      ensures !found ==> rows == old(rows)
    {
      r := 0;
      while r < |rows|
        invariant r <= |rows| && rows == old(rows)
        invariant forall q :: 0 <= q < r ==> !Claimable(rows[q])
      {
        if Claimable(rows[r]) {
          rows := Take(rows, r);
          return true, r;
        }
        r := r + 1;
      }
      found := false;
    }

    /**
     * One iteration of the tick. It takes the oldest claimable delivery, if there is one, and leaves it
     * in the state the outcome dictates, with its facts if and only if it was handled.
     */
    method ProcessOne(outcome: Outcome) returns (more: bool, ghost found: bool, ghost r: nat)
      modifies this
      ensures found <==> exists q :: 0 <= q < |old(rows)| && Claimable(old(rows)[q])
      ensures more == (found && outcome != Interrupted)
      ensures !found ==> rows == old(rows) && facts == old(facts)
      ensures found ==> Iterates(old(rows), old(facts), r, outcome, rows, facts)
    {
      var claimed, row := ClaimDelivery();
      found, r := claimed, row;
      if !claimed {
        return false, found, r;
      }
      if outcome == Handled && rows[row].scoped {
        facts := facts + multiset{rows[row].githubId};
      }
      rows := Mark(rows, row, StatusAfter(outcome));
      IterationIs(old(rows), old(facts), row, outcome, facts);
      more := outcome != Interrupted;
    }

    /** What the HTTP handlers insert between two iterations. */
    method ReceiveAll(batch: seq<Arrival>)
      modifies this`rows
      ensures |rows| >= |old(rows)| && rows[..|old(rows)|] == old(rows)
      ensures forall i :: 0 <= i < |batch| ==> Known(rows, batch[i].githubId)
      ensures batch == [] ==> rows == old(rows)
      ensures Progress(old(rows), facts, rows, facts)
    {
      for i := 0 to |batch|
        invariant Progress(old(rows), facts, rows, facts)
        invariant |rows| >= |old(rows)| && rows[..|old(rows)|] == old(rows)
        invariant forall j :: 0 <= j < i ==> Known(rows, batch[j].githubId)
        invariant i == 0 ==> rows == old(rows)
      {
        ghost var before := rows;
        var inserted := Receive(batch[i].githubId, batch[i].scoped, batch[i].valid);
        ReceiptProgresses(before, facts, batch[i]);
        ProgressGoesOn(old(rows), facts, before, facts, rows, facts);
        assert inserted ==> rows[|before|].githubId == batch[i].githubId;
        IdsStayKnown(before, rows);
      }
    }

    /**
     * The drain loop of one tick, while deliveries keep coming in between its iterations. It ends for
     * every sequence of outcomes once no more arrive; unless interrupted it leaves nothing claimable. Every
     * delivery that was there still is, untouched if it was not claimable, and deliveries and facts still match.
     */
    method Drain(outcomes: nat -> Outcome, arrivals: nat -> seq<Arrival>, ghost quiet: nat) returns (iterations: nat)
      requires forall i: nat :: i >= quiet ==> arrivals(i) == []
      modifies this
      ensures (forall i: nat :: outcomes(i) != Interrupted) ==> forall q :: 0 <= q < |rows| ==> !Claimable(rows[q])
      ensures Progress(old(rows), old(facts), rows, facts)
    {
      iterations := 0;
      var more := true;
      while more
        invariant Progress(old(rows), old(facts), rows, facts)
        invariant !more && (forall i: nat :: outcomes(i) != Interrupted) ==>
                    forall q :: 0 <= q < |rows| ==> !Claimable(rows[q])
        decreases more, if iterations < quiet then quiet - iterations else 0, Remaining(rows)
      {
        ghost var start := rows;
        ReceiveAll(arrivals(iterations));
        ProgressGoesOn(old(rows), old(facts), start, facts, rows, facts);
        ghost var before, known := rows, facts;
        ghost var found, r;
        more, found, r := ProcessOne(outcomes(iterations));
        if found {
          IterationProgresses(before, known, r, outcomes(iterations), rows, facts);
          ProgressGoesOn(old(rows), old(facts), before, known, rows, facts);
        }
        iterations := iterations + 1;
      }
    }
  }
}
