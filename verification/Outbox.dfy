/** The event_outbox table: one row per event, and what one broker confirm does to a row. */
module Outbox {
  import opened Basics

  /** Event ids are UUIDv7 values: unique, and ordered by the moment they were drawn. */
  type EventId = nat

  /** A workflow run row is keyed by its GitHub id and its attempt number. */
  datatype RunKey = RunKey(githubRunId: int, attempt: int)

  datatype Event =
    | RunCompleted(run: RunKey)
    | DeploymentRecorded(run: RunKey)

  datatype Status = Pending | Published | Failed

  datatype Row = Row(event: Event, status: Status, attempts: nat, availableAt: int)

  type Table = map<EventId, Row>

  datatype Confirm = Ack | Nack

  const MAX_ATTEMPTS: nat := 8
  const BATCH_SIZE: nat := 50

  function NewRow(event: Event, now: int): Row {
    Row(event, Pending, 0, now)
  }

  /** 1 << n. */
  function Pow2(n: nat): nat {
    if n == 0 then 1 else 2 * Pow2(n - 1)
  }

  function BackoffSeconds(nextAttempts: nat): int {
    Min(5 * Pow2(Min(nextAttempts, 6)), 300)
  }

  /** The retry delay never shrinks and always lies between 10 and 300 seconds. */
  lemma BackoffBounds(m: nat, n: nat)
    requires 1 <= m <= n
    ensures 10 <= BackoffSeconds(m) <= BackoffSeconds(n) <= 300
  {}

  /** The delay starts at ten seconds and doubles with every attempt until it reaches five minutes. */
  lemma BackoffDoubles(n: nat)
    requires n >= 1
    ensures BackoffSeconds(1) == 10
    ensures BackoffSeconds(n + 1) == if 2 * BackoffSeconds(n) < 300 then 2 * BackoffSeconds(n) else 300
  {
    if n <= 6 { assert Pow2(n + 1) == 2 * Pow2(n); }
  }

  /** One confirm, recorded on one claimed row. */
  function Settle(row: Row, confirm: Confirm, now: int): Row {
    match confirm
    case Ack => row.(status := Published)
    case Nack =>
      var next := row.attempts + 1;
      if next >= MAX_ATTEMPTS then row.(status := Failed, attempts := next)
      else row.(attempts := next, availableAt := now + BackoffSeconds(next))
  }

  predicate Eligible(table: Table, id: EventId, now: int) {
    id in table && table[id].status == Pending && table[id].availableAt <= now
  }

  /** A nacked row cannot be claimed again at the instant of its nack. */
  lemma NackedRowWaits(table: Table, id: EventId, now: int)
    requires id in table
    ensures !Eligible(table[id := Settle(table[id], Nack, now)], id, now + 9)
  {}

  /** A new row is due at once, and a nacked row again exactly when its delay is over, up to seven times. */
  lemma DueAgain(table: Table, id: EventId, event: Event, now: int, later: int)
    ensures Eligible(table[id := NewRow(event, now)], id, later) <==> later >= now
    ensures id in table && table[id].status == Pending ==>
              (Eligible(table[id := Settle(table[id], Nack, now)], id, later) <==>
                 table[id].attempts + 1 < 8 && later >= now + BackoffSeconds(table[id].attempts + 1))
    ensures id in table ==> !Eligible(table[id := Settle(table[id], Ack, now)], id, later)
  {}

  predicate Ascending(ids: seq<EventId>) {
    forall i, j :: 0 <= i < j < |ids| ==> ids[i] < ids[j]
  }

  /**
   * What `SELECT ... WHERE status = 'pending' AND available_at <= now() ORDER BY id
   * FOR UPDATE SKIP LOCKED LIMIT 50` may return: the first eligible rows that nobody holds.
   */
  ghost predicate IsClaim(table: Table, locked: set<EventId>, now: int, ids: seq<EventId>) {
    && Ascending(ids)
    && |ids| <= BATCH_SIZE
    && (forall i :: 0 <= i < |ids| ==> Eligible(table, ids[i], now) && ids[i] !in locked)
    && (forall id :: Eligible(table, id, now) && id !in locked && id !in ids ==>
          |ids| == BATCH_SIZE && forall i :: 0 <= i < |ids| ==> ids[i] < id)
  }

  /** A claim takes fifty rows, or all that are pending, due and not locked. */
  lemma ClaimIsFull(table: Table, locked: set<EventId>, now: int, ids: seq<EventId>, id: EventId)
    requires IsClaim(table, locked, now, ids)
    ensures |ids| <= 50
    ensures id in ids ==> id in table && table[id].status == Pending && table[id].availableAt <= now && id !in locked
    ensures id in table && table[id].status == Pending && table[id].availableAt <= now && id !in locked ==>
              id in ids || (|ids| == 50 && forall i :: 0 <= i < 50 ==> ids[i] < id)
  {}

  /** The rows after the first |confirms| claimed ids have been settled, in claim order. */
  function SettleAll(table: Table, ids: seq<EventId>, confirms: seq<Confirm>, now: int): Table
    requires |confirms| <= |ids|
    requires forall i :: 0 <= i < |ids| ==> ids[i] in table
  {
    if confirms == [] then table
    else
      var k := |confirms| - 1;
      SettleAll(table, ids, confirms[..k], now)[ids[k] := Settle(table[ids[k]], confirms[k], now)]
  }

  /** Settling touches exactly the confirmed ids, each once and with its own confirm. */
  lemma {:induction false} SettleAllRows(table: Table, ids: seq<EventId>, confirms: seq<Confirm>, now: int)
    requires |confirms| <= |ids| && Ascending(ids)
    requires forall i :: 0 <= i < |ids| ==> ids[i] in table
    ensures SettleAll(table, ids, confirms, now).Keys == table.Keys
    ensures forall i :: 0 <= i < |confirms| ==>
              SettleAll(table, ids, confirms, now)[ids[i]] == Settle(table[ids[i]], confirms[i], now)
    ensures forall id :: id in table && id !in ids[..|confirms|] ==>
              SettleAll(table, ids, confirms, now)[id] == table[id]
    decreases |confirms|
  {
    if confirms != [] {
      var k := |confirms| - 1;
      SettleAllRows(table, ids, confirms[..k], now);
      SettleOneMore(table, ids, confirms, now, k, SettleAll(table, ids, confirms[..k], now));
    }
  }

  /** One more confirm settles one more row, which is none of those settled before. */
  lemma SettleOneMore(table: Table, ids: seq<EventId>, confirms: seq<Confirm>, now: int, k: nat, settled: Table)
    requires k < |confirms| <= |ids| && Ascending(ids) && ids[k] in table && settled.Keys == table.Keys
    requires forall i :: 0 <= i < k ==>
               ids[i] in settled && settled[ids[i]] == Settle(table[ids[i]], confirms[i], now)
    requires forall id :: id in table && id !in ids[..k] ==> settled[id] == table[id]
    ensures var after := settled[ids[k] := Settle(table[ids[k]], confirms[k], now)];
            && after.Keys == table.Keys
            && (forall i :: 0 <= i <= k ==>
                  ids[i] in after && after[ids[i]] == Settle(table[ids[i]], confirms[i], now))
            && (forall id :: id in table && id !in ids[..k + 1] ==> after[id] == table[id])
  {
    assert ids[..k + 1] == ids[..k] + [ids[k]];
  }

  /** Attempts a pending row still has before it is parked as failed. */
  function Weight(table: Table, id: EventId): nat {
    if id in table && table[id].status == Pending && table[id].attempts <= MAX_ATTEMPTS
    then MAX_ATTEMPTS - table[id].attempts else 0
  }

  /** Total of `Weight` over the ids below `bound`. */
  function Backlog(table: Table, bound: nat): nat {
    if bound == 0 then 0 else Backlog(table, bound - 1) + Weight(table, bound - 1)
  }

  lemma {:induction false} BacklogFalls(before: Table, after: Table, bound: nat, id: EventId)
    requires forall i: EventId :: Weight(after, i) <= Weight(before, i)
    requires Weight(after, id) < Weight(before, id)
    ensures Backlog(after, bound) <= Backlog(before, bound)
    ensures id < bound ==> Backlog(after, bound) < Backlog(before, bound)
  {
    if bound > 0 {
      BacklogFalls(before, after, bound - 1, id);
    }
  }

  /**
   * Settling a whole non-empty batch strictly lowers the backlog, whatever the broker answers.
   */
  lemma BatchLowersBacklog(table: Table, ids: seq<EventId>, confirms: seq<Confirm>, now: int, bound: nat)
    requires |confirms| == |ids| > 0 && Ascending(ids)
    requires forall i :: 0 <= i < |ids| ==>
               && ids[i] in table && ids[i] < bound
               && table[ids[i]].status == Pending && table[ids[i]].attempts < MAX_ATTEMPTS
    ensures Backlog(SettleAll(table, ids, confirms, now), bound) < Backlog(table, bound)
  {
    SettleAllRows(table, ids, confirms, now);
    var after := SettleAll(table, ids, confirms, now);
    assert ids[..|confirms|] == ids;
    forall i: EventId ensures Weight(after, i) <= Weight(table, i) {
      if i in ids {
        var k :| 0 <= k < |ids| && ids[k] == i;
        assert after[ids[k]] == Settle(table[ids[k]], confirms[k], now);
      }
    }
    assert after[ids[0]] == Settle(table[ids[0]], confirms[0], now);
    BacklogFalls(table, after, bound, ids[0]);
  }
}
