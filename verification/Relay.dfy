/**
 * The outbox relay as a protocol: any number of replicas, each with at most one open batch
 * transaction, against one shared table and a broker that may ack, nack or drop the connection.
 */
module Relay {
  import opened Outbox

  type Replica = nat

  /**
   * An open batch transaction. `snapshot` is what the claiming SELECT returned; the UPDATEs are
   * computed from it and become visible to others only at commit. `now` is the transaction's clock.
   */
  datatype Batch = Batch(now: int, claimed: seq<EventId>, snapshot: Table, confirms: seq<Confirm>)

  /** The table, the open batches, and four histories that only grow. */
  datatype State = State(
    outbox: Table,
    batches: map<Replica, Batch>,
    acks: multiset<EventId>,      // every ack a relay has observed
    lost: multiset<EventId>,      // acks observed by a batch that was then rolled back
    publishes: multiset<EventId>, // commits that turned a row to published
    nacks: multiset<EventId>)     // nacks recorded by a committed batch

  datatype Step =
    | Enqueue(events: map<EventId, Event>, at: int)
    | Claim(replica: Replica, now: int, ids: seq<EventId>)
    | Confirmed(replica: Replica, confirm: Confirm)
    | Rollback(replica: Replica)
    | Commit(replica: Replica)

  const INIT := State(map[], map[], multiset{}, multiset{}, multiset{}, multiset{})

  ghost predicate Holds(s: State, r: Replica, id: EventId) {
    r in s.batches && id in s.batches[r].claimed
  }

  ghost function Locked(s: State): set<EventId> {
    set r, id | r in s.batches && id in s.batches[r].claimed :: id
  }

  function Acked(b: Batch): set<EventId>
    requires |b.confirms| <= |b.claimed|
  {
    set i | 0 <= i < |b.confirms| && b.confirms[i] == Ack :: b.claimed[i]
  }

  function Nacked(b: Batch): set<EventId>
    requires |b.confirms| <= |b.claimed|
  {
    set i | 0 <= i < |b.confirms| && b.confirms[i] == Nack :: b.claimed[i]
  }

  ghost predicate Enabled(s: State, step: Step) {
    match step
    case Enqueue(events, _) => events.Keys !! s.outbox.Keys
    case Claim(r, now, ids) => r !in s.batches && IsClaim(s.outbox, Locked(s), now, ids)
    case Confirmed(r, _) => r in s.batches && |s.batches[r].confirms| < |s.batches[r].claimed|
    case Rollback(r) => r in s.batches
    case Commit(r) => r in s.batches && |s.batches[r].confirms| == |s.batches[r].claimed|
  }

  /** The rows one ingest transaction adds when it commits. */
  function NewRows(events: map<EventId, Event>, at: int): Table {
    map id | id in events :: NewRow(events[id], at)
  }

  /** What the batch writes when it commits. */
  ghost function Written(b: Batch): Table
    requires BatchShape(b)
  {
    SettleAll(b.snapshot, b.claimed, b.confirms, b.now)
  }

  ghost function Apply(s: State, step: Step): State
    requires Shaped(s) && Enabled(s, step)
  {
    match step
    case Enqueue(events, at) => s.(outbox := s.outbox + NewRows(events, at))
    case Claim(r, now, ids) =>
      var snapshot := map id | id in ids :: s.outbox[id];
      s.(batches := s.batches[r := Batch(now, ids, snapshot, [])])
    case Confirmed(r, confirm) =>
      var b := s.batches[r];
      var id := b.claimed[|b.confirms|];
      s.(batches := s.batches[r := b.(confirms := b.confirms + [confirm])],
         acks := if confirm == Ack then s.acks + multiset{id} else s.acks)
    case Rollback(r) =>
      s.(batches := s.batches - {r}, lost := s.lost + multiset(Acked(s.batches[r])))
    case Commit(r) =>
      var b := s.batches[r];
      s.(batches := s.batches - {r},
         outbox := s.outbox + Written(b),
         publishes := s.publishes + multiset(Acked(b)),
         nacks := s.nacks + multiset(Nacked(b)))
  }

  // ---- Invariant ----

  ghost predicate BatchShape(b: Batch) {
    && |b.confirms| <= |b.claimed|
    && Ascending(b.claimed)
    && (forall id :: id in b.snapshot <==> id in b.claimed)
    && (forall id :: id in b.snapshot ==> b.snapshot[id].status == Pending)
  }

  ghost predicate Shaped(s: State) {
    forall r :: r in s.batches ==> BatchShape(s.batches[r])
  }

  ghost predicate BatchesOk(s: State) {
    forall r :: r in s.batches ==>
      && BatchShape(s.batches[r])
      && (forall id :: id in s.batches[r].claimed ==> id in s.outbox && s.outbox[id] == s.batches[r].snapshot[id])
  }

  /** No row is held by two open batches. */
  ghost predicate Exclusive(s: State) {
    forall r1, r2, id :: Holds(s, r1, id) && Holds(s, r2, id) ==> r1 == r2
  }

  ghost predicate RowsOk(s: State) {
    forall id :: id in s.outbox ==>
      && (s.outbox[id].status == Failed ==> s.outbox[id].attempts == MAX_ATTEMPTS)
      && (s.outbox[id].status != Failed ==> s.outbox[id].attempts < MAX_ATTEMPTS)
  }

  /** 1 while some open batch has an ack for `id` that is not yet committed. */
  ghost function InFlight(s: State, id: EventId): nat
    requires BatchesOk(s)
  {
    if exists r :: r in s.batches && id in Acked(s.batches[r]) then 1 else 0
  }

  ghost predicate Accounted(s: State, id: EventId)
    requires BatchesOk(s)
  {
    && s.acks[id] == s.publishes[id] + s.lost[id] + InFlight(s, id)
    && s.publishes[id] == (if id in s.outbox && s.outbox[id].status == Published then 1 else 0)
    && s.nacks[id] == (if id in s.outbox then s.outbox[id].attempts else 0)
  }

  ghost predicate Inv(s: State) {
    && BatchesOk(s)
    && Exclusive(s)
    && RowsOk(s)
    && forall id :: Accounted(s, id)
  }

  lemma EnqueueKeepsInv(s: State, step: Step)
    requires Inv(s) && Enabled(s, step) && step.Enqueue?
    ensures Inv(Apply(s, step))
  {
    var s' := Apply(s, step);
    assert BatchesOk(s');
    forall id ensures Accounted(s', id) {
      assert Accounted(s, id);
    }
    assert forall r, id :: Holds(s', r, id) ==> Holds(s, r, id);
  }

  /** SKIP LOCKED: a claim never takes a row that an open batch holds. */
  lemma ClaimIsExclusive(s: State, step: Step)
    requires BatchesOk(s) && Exclusive(s) && Enabled(s, step) && step.Claim?
    ensures Exclusive(Apply(s, step))
  {
    var s' := Apply(s, step);
    var r := step.replica;
    forall q, id | q in s.batches && Holds(s', q, id) ensures Holds(s, q, id) && !Holds(s', r, id) {
      assert id in Locked(s);
    }
  }

  lemma ClaimKeepsInFlight(s: State, step: Step, id: EventId)
    requires BatchesOk(s) && Enabled(s, step) && step.Claim?
    ensures BatchesOk(Apply(s, step)) && InFlight(Apply(s, step), id) == InFlight(s, id)
  {
    var s' := Apply(s, step);
    assert Acked(s'.batches[step.replica]) == {};
    if q :| q in s.batches && id in Acked(s.batches[q]) {
      assert q in s'.batches && id in Acked(s'.batches[q]);
    }
  }

  lemma ClaimKeepsInv(s: State, step: Step)
    requires Inv(s) && Enabled(s, step) && step.Claim?
    ensures Inv(Apply(s, step))
  {
    var s' := Apply(s, step);
    ClaimIsExclusive(s, step);
    ClaimKeepsInFlight(s, step, 0);
    forall id ensures Accounted(s', id) {
      assert Accounted(s, id);
      ClaimKeepsInFlight(s, step, id);
    }
  }

  lemma ConfirmedAcks(b: Batch, confirm: Confirm)
    requires BatchShape(b) && |b.confirms| < |b.claimed|
    ensures var b' := b.(confirms := b.confirms + [confirm]); var next := b.claimed[|b.confirms|];
            && BatchShape(b')
            && next !in Acked(b)
            && Acked(b') == Acked(b) + (if confirm == Ack then {next} else {})
  {}

  lemma ConfirmedInFlight(s: State, step: Step, id: EventId)
    requires BatchesOk(s) && Exclusive(s) && Enabled(s, step) && step.Confirmed?
    ensures BatchesOk(Apply(s, step))
    ensures var b := s.batches[step.replica]; var next := b.claimed[|b.confirms|];
            InFlight(Apply(s, step), id) == InFlight(s, id) + (if id == next && step.confirm == Ack then 1 else 0)
  {
    var s' := Apply(s, step);
    var r := step.replica;
    var b := s.batches[r];
    var next := b.claimed[|b.confirms|];
    ConfirmedAcks(b, step.confirm);
    assert s'.batches[r] == b.(confirms := b.confirms + [step.confirm]);
    if q :| q in s.batches && id in Acked(s.batches[q]) {
      assert Holds(s, q, id);
      assert Holds(s, r, next);
      assert id == next ==> q == r;
      assert q in s'.batches && id in Acked(s'.batches[q]);
    } else if id == next && step.confirm == Ack {
      assert r in s'.batches && id in Acked(s'.batches[r]);
    }
  }

  lemma ConfirmedKeepsInv(s: State, step: Step)
    requires Inv(s) && Enabled(s, step) && step.Confirmed?
    ensures Inv(Apply(s, step))
  {
    var s' := Apply(s, step);
    assert forall q, id :: Holds(s', q, id) ==> Holds(s, q, id);
    ConfirmedInFlight(s, step, 0);
    forall id ensures Accounted(s', id) {
      assert Accounted(s, id);
      ConfirmedInFlight(s, step, id);
    }
  }

  lemma RollbackKeepsInv(s: State, step: Step)
    requires Inv(s) && Enabled(s, step) && step.Rollback?
    ensures Inv(Apply(s, step))
  {
    var s' := Apply(s, step);
    var r := step.replica;
    assert forall q, id :: Holds(s', q, id) ==> Holds(s, q, id);
    assert Exclusive(s');
    assert BatchesOk(s');
    forall id ensures Accounted(s', id) {
      assert Accounted(s, id);
      ClosedBatchAcks(s, r, id);
      assert s'.batches == s.batches - {r};
    }
  }

  /** Closing one batch moves its acks out of flight: no other batch can have acked the same id. */
  lemma ClosedBatchAcks(s: State, r: Replica, id: EventId)
    requires Inv(s) && r in s.batches
    ensures multiset(Acked(s.batches[r]))[id] == (if id in Acked(s.batches[r]) then 1 else 0)
    ensures var rest := s.(batches := s.batches - {r});
            BatchesOk(rest) && InFlight(s, id) == InFlight(rest, id) + multiset(Acked(s.batches[r]))[id]
  {
    var rest := s.(batches := s.batches - {r});
    if id in Acked(s.batches[r]) {
      if q :| q in rest.batches && id in Acked(rest.batches[q]) {
        assert Holds(s, q, id) && Holds(s, r, id);
        assert false;
      }
    } else if q :| q in s.batches && id in Acked(s.batches[q]) {
      assert q in rest.batches && id in Acked(rest.batches[q]);
    }
  }

  /** What a commit leaves in one row. */
  lemma CommittedRow(s: State, r: Replica, id: EventId)
    requires Inv(s) && Enabled(s, Commit(r)) && id in s.outbox
    ensures var b := s.batches[r]; var s' := Apply(s, Commit(r));
            && id in s'.outbox
            && (id !in b.claimed ==> s'.outbox[id] == s.outbox[id] && id !in Acked(b) && id !in Nacked(b))
            && (id in Acked(b) ==> s'.outbox[id] == Settle(s.outbox[id], Ack, b.now) && id !in Nacked(b))
            && (id in Nacked(b) ==> s'.outbox[id] == Settle(s.outbox[id], Nack, b.now) && id !in Acked(b))
            && (id in b.claimed ==> s.outbox[id].status == Pending && (id in Acked(b) || id in Nacked(b)))
  {
    var b := s.batches[r];
    if id in b.claimed {
      WrittenRow(b, id);
    } else {
      assert forall k :: 0 <= k < |b.claimed| ==> b.claimed[k] != id;
      SettleAllRows(b.snapshot, b.claimed, b.confirms, b.now);
    }
  }

  /** What a complete batch writes into one claimed row. */
  lemma WrittenRow(b: Batch, id: EventId)
    requires BatchShape(b) && |b.confirms| == |b.claimed| && id in b.claimed
    ensures id in Written(b)
    ensures (id in Acked(b)) != (id in Nacked(b))
    ensures Written(b)[id] == Settle(b.snapshot[id], if id in Acked(b) then Ack else Nack, b.now)
  {
    var k :| 0 <= k < |b.claimed| && b.claimed[k] == id;
    SettleAllRows(b.snapshot, b.claimed, b.confirms, b.now);
    assert forall i :: 0 <= i < |b.claimed| && b.claimed[i] == id ==> i == k;
    assert Written(b)[b.claimed[k]] == Settle(b.snapshot[id], b.confirms[k], b.now);
    assert b.confirms[k] == Ack || b.confirms[k] == Nack;
  }

  lemma CommitKeepsBatches(s: State, step: Step)
    requires Inv(s) && Enabled(s, step) && step.Commit?
    ensures Apply(s, step).outbox.Keys == s.outbox.Keys
    ensures BatchesOk(Apply(s, step))
  {
    var s' := Apply(s, step);
    var b := s.batches[step.replica];
    SettleAllRows(b.snapshot, b.claimed, b.confirms, b.now);
    assert s'.outbox.Keys == s.outbox.Keys;
    forall q, id | q in s'.batches && id in s'.batches[q].claimed
      ensures id in s'.outbox && s'.outbox[id] == s'.batches[q].snapshot[id]
    {
      assert Holds(s, q, id);
      assert !Holds(s, step.replica, id);
      CommittedRow(s, step.replica, id);
    }
  }

  lemma CommitAccounts(s: State, step: Step, id: EventId)
    requires Inv(s) && Enabled(s, step) && step.Commit?
    requires BatchesOk(Apply(s, step)) && Apply(s, step).outbox.Keys == s.outbox.Keys
    ensures Accounted(Apply(s, step), id)
  {
    var s' := Apply(s, step);
    var r := step.replica;
    assert Accounted(s, id);
    ClosedBatchAcks(s, r, id);
    var rest := s.(batches := s.batches - {r});
    assert s'.batches == rest.batches;
    assert InFlight(s', id) == InFlight(rest, id);
    if id in s.outbox {
      CommittedRow(s, r, id);
    } else {
      assert id !in s.batches[r].claimed;
    }
  }

  lemma CommitKeepsInv(s: State, step: Step)
    requires Inv(s) && Enabled(s, step) && step.Commit?
    ensures Inv(Apply(s, step))
    ensures Apply(s, step).outbox.Keys == s.outbox.Keys
  {
    var s' := Apply(s, step);
    CommitKeepsBatches(s, step);
    assert forall q, id :: Holds(s', q, id) ==> Holds(s, q, id);
    forall id ensures Accounted(s', id) {
      CommitAccounts(s, step, id);
    }
    forall id | id in s'.outbox
      ensures s'.outbox[id].status == Failed ==> s'.outbox[id].attempts == MAX_ATTEMPTS
      ensures s'.outbox[id].status != Failed ==> s'.outbox[id].attempts < MAX_ATTEMPTS
    {
      CommittedRow(s, step.replica, id);
    }
  }

  lemma StepKeepsInv(s: State, step: Step)
    requires Inv(s) && Enabled(s, step)
    ensures Inv(Apply(s, step))
  {
    match step
    case Enqueue(_, _) => EnqueueKeepsInv(s, step);
    case Claim(_, _, _) => ClaimKeepsInv(s, step);
    case Confirmed(_, _) => ConfirmedKeepsInv(s, step);
    case Rollback(_) => RollbackKeepsInv(s, step);
    case Commit(_) => CommitKeepsInv(s, step);
  }

  /** How a row may change: its event is immutable, and a published or failed row is final. */
  ghost predicate RowEvolves(before: Table, after: Table, id: EventId)
    requires id in before
  {
    && id in after
    && after[id].event == before[id].event
    && before[id].attempts <= after[id].attempts
    && (before[id].status != Pending ==> after[id] == before[id])
  }

  ghost predicate Evolves(before: Table, after: Table) {
    forall id :: id in before ==> RowEvolves(before, after, id)
  }

  lemma StepEvolves(s: State, step: Step)
    requires Inv(s) && Enabled(s, step)
    ensures Evolves(s.outbox, Apply(s, step).outbox)
  {
    if step.Commit? {
      forall id | id in s.outbox ensures RowEvolves(s.outbox, Apply(s, step).outbox, id) {
        CommittedRow(s, step.replica, id);
      }
    }
  }

  // ---- Whole runs ----

  ghost predicate Next(s: State, step: Step, s': State) {
    Shaped(s) && Enabled(s, step) && s' == Apply(s, step)
  }

  /** `states` is a run: it starts empty and every move is an enabled step. */
  ghost predicate Run(states: seq<State>, steps: seq<Step>) {
    && |states| == |steps| + 1
    && states[0] == INIT
    && forall i :: 0 <= i < |steps| ==> Next(states[i], steps[i], states[i + 1])
  }

  lemma NextKeepsInv(s: State, step: Step, s': State)
    requires Inv(s) && Next(s, step, s')
    ensures Inv(s')
  {
    StepKeepsInv(s, step);
  }

  lemma {:induction false} RunKeepsInv(states: seq<State>, steps: seq<Step>, n: nat)
    requires Run(states, steps) && n < |states|
    ensures Inv(states[n])
  {
    if n > 0 {
      var k := n - 1;
      RunKeepsInv(states, steps, k);
      NextKeepsInv(states[k], steps[k], states[k + 1]);
    }
  }

  lemma RunStepEvolves(states: seq<State>, steps: seq<Step>, n: nat)
    requires Run(states, steps) && n < |steps|
    ensures Evolves(states[n].outbox, states[n + 1].outbox)
  {
    RunKeepsInv(states, steps, n);
    assert Next(states[n], steps[n], states[n + 1]);
    StepEvolves(states[n], steps[n]);
  }

  /** No outbox row is ever lost or rewritten once its fate is decided. */
  lemma {:induction false} RunEvolves(states: seq<State>, steps: seq<Step>, m: nat, n: nat)
    requires Run(states, steps) && m <= n < |states|
    ensures Evolves(states[m].outbox, states[n].outbox)
    decreases n
  {
    if m < n {
      RunEvolves(states, steps, m, n - 1);
      RunStepEvolves(states, steps, n - 1);
    }
  }

  /** Delivery accounting in every reachable state, for every id. */
  lemma DeliveryAccounting(states: seq<State>, steps: seq<Step>, n: nat, id: EventId)
    requires Run(states, steps) && n < |states| && id in states[n].outbox
    ensures var s := states[n]; var row := s.outbox[id];
            && (row.status == Published ==> s.acks[id] >= 1)
            && (row.status == Pending ==> row.attempts <= 7)
            && (row.status == Failed ==> s.nacks[id] == 8)
            && s.publishes[id] <= 1
            && s.nacks[id] == row.attempts
            && (forall r1, r2 :: Holds(s, r1, id) && Holds(s, r2, id) ==> r1 == r2)
            && ((forall r :: !Holds(s, r, id)) ==>
                  s.acks[id] == s.lost[id] + (if row.status == Published then 1 else 0))
  {
    RunKeepsInv(states, steps, n);
    var s := states[n];
    assert Accounted(s, id);
    if forall r :: !Holds(s, r, id) {
      if r :| r in s.batches && id in Acked(s.batches[r]) {
        assert Holds(s, r, id);
      }
    }
  }

  lemma CommitWeight(s: State, r: Replica, id: EventId)
    requires Inv(s) && Enabled(s, Commit(r))
    ensures Weight(Apply(s, Commit(r)).outbox, id) <= Weight(s.outbox, id)
    ensures id in s.batches[r].claimed ==> Weight(Apply(s, Commit(r)).outbox, id) < Weight(s.outbox, id)
  {
    CommitKeepsInv(s, Commit(r));
    if id in s.outbox { CommittedRow(s, r, id); }
  }

  /** With nothing new enqueued, a committed non-empty batch leaves strictly less work. */
  lemma CommitLowersBacklog(s: State, r: Replica, bound: nat)
    requires Inv(s) && Enabled(s, Commit(r)) && s.batches[r].claimed != []
    requires forall id :: id in s.outbox ==> id < bound
    ensures Backlog(Apply(s, Commit(r)).outbox, bound) < Backlog(s.outbox, bound)
  {
    var first := s.batches[r].claimed[0];
    assert first in s.outbox;
    forall i: EventId ensures Weight(Apply(s, Commit(r)).outbox, i) <= Weight(s.outbox, i) {
      CommitWeight(s, r, i);
    }
    CommitWeight(s, r, first);
    BacklogFalls(s.outbox, Apply(s, Commit(r)).outbox, bound, first);
  }
}
