/** The relay's own code: claim a batch, publish it row by row, and drain until nothing is left. */
module RelayService {
  import opened Outbox

  /** What one publish may come back with. */
  datatype Reply = Confirmed(confirm: Confirm) | ConnectionLost | DatabaseError

  datatype DrainResult = Drained(claimed: nat) | Disconnected | DatabaseFailed

  function ConfirmOf(reply: Reply): Confirm {
    if reply.Confirmed? then reply.confirm else Nack
  }

  /** The first n replies, read as confirms. */
  function Confirms(replies: nat -> Reply, n: nat): (confirms: seq<Confirm>)
    ensures |confirms| == n
    ensures forall i :: 0 <= i < n ==> confirms[i] == ConfirmOf(replies(i))
  {
    if n == 0 then [] else Confirms(replies, n - 1) + [ConfirmOf(replies(n - 1))]
  }

  ghost predicate AllConfirmed(replies: nat -> Reply, n: nat) {
    forall i: nat :: i < n ==> replies(i).Confirmed?
  }

  predicate IsLeast(ids: set<EventId>, least: EventId) {
    least in ids && forall id :: id in ids ==> least <= id
  }

  lemma {:induction false} LeastExists(ids: set<EventId>)
    requires ids != {}
    ensures exists least :: IsLeast(ids, least)
    decreases |ids|
  {
    var some :| some in ids;
    var rest := ids - {some};
    if rest == {} {
      assert ids == {some};
      assert IsLeast(ids, some);
    } else {
      LeastExists(rest);
      var least :| IsLeast(rest, least);
      assert forall id :: id in ids ==> id == some || id in rest;
      assert IsLeast(ids, if some < least then some else least);
    }
  }

  method LeastOf(ids: set<EventId>) returns (least: EventId)
    requires ids != {}
    ensures IsLeast(ids, least)
  {
    LeastExists(ids);
    least :| least in ids && IsLeast(ids, least);
  }

  /** The first eligible unlocked rows in id order, at most BATCH_SIZE of them. */
  method SelectPending(table: Table, locked: set<EventId>, now: int) returns (ids: seq<EventId>)
    ensures IsClaim(table, locked, now, ids)
  {
    var rest := set id | id in table && Eligible(table, id, now) && id !in locked;
    ghost var due := rest;
    ids := [];
    while |ids| < BATCH_SIZE && rest != {}
      invariant |ids| <= BATCH_SIZE && Ascending(ids)
      invariant rest <= due
      invariant forall i :: 0 <= i < |ids| ==> ids[i] in due
      invariant forall id :: id in due ==> id in rest || id in ids
      invariant forall i, id :: 0 <= i < |ids| && id in rest ==> ids[i] < id
      decreases rest
    {
      var least := LeastOf(rest);
      rest := rest - {least};
      ids := ids + [least];
    }
  }

  /** Publishes a claimed batch row by row inside its transaction; `view` is what it would commit. */
  method PublishAll(table: Table, ids: seq<EventId>, now: int, replies: nat -> Reply)
    returns (result: DrainResult, view: Table)
    requires forall i :: 0 <= i < |ids| ==> ids[i] in table
    ensures result.Drained? <==> AllConfirmed(replies, |ids|)
    ensures result.Drained? ==>
              result.claimed == |ids| && view == SettleAll(table, ids, Confirms(replies, |ids|), now)
  {
    view := table;
    for i := 0 to |ids|
      invariant AllConfirmed(replies, i)
      invariant view == SettleAll(table, ids, Confirms(replies, i), now)
    {
      match replies(i)
      case ConnectionLost => return Disconnected, view;
      case DatabaseError => return DatabaseFailed, view;
      case Confirmed(confirm) =>
        assert Confirms(replies, i + 1)[..i] == Confirms(replies, i);
        view := view[ids[i] := Settle(table[ids[i]], confirm, now)];
    }
    result := Drained(|ids|);
  }

  /** What the outbox rows satisfy between transactions. */
  ghost predicate TableOk(table: Table, nextId: EventId) {
    forall id :: id in table ==>
      id < nextId && (table[id].status == Pending ==> table[id].attempts < MAX_ATTEMPTS)
  }

  /** A committed batch keeps every row, keeps the table well formed, and lowers the backlog. */
  lemma CommittedBatch(
    table: Table, nextId: EventId, locked: set<EventId>, now: int, ids: seq<EventId>, confirms: seq<Confirm>)
    requires TableOk(table, nextId) && IsClaim(table, locked, now, ids) && |confirms| == |ids|
    ensures var after := SettleAll(table, ids, confirms, now);
            && after.Keys == table.Keys
            && TableOk(after, nextId)
            && Backlog(after, nextId) <= Backlog(table, nextId)
            && (ids != [] ==> Backlog(after, nextId) < Backlog(table, nextId))
  {
    SettleAllRows(table, ids, confirms, now);
    assert ids[..|confirms|] == ids;
    var after := SettleAll(table, ids, confirms, now);
    forall id | id in after
      ensures id < nextId && (after[id].status == Pending ==> after[id].attempts < MAX_ATTEMPTS)
    {
      if id in ids {
        var k :| 0 <= k < |ids| && ids[k] == id;
        assert after[ids[k]] == Settle(table[ids[k]], confirms[k], now);
      }
    }
    if ids != [] {
      BatchLowersBacklog(table, ids, confirms, now, nextId);
    }
  }

  /** A committed transaction of somebody else: an ingest's event, or another replica's batch. */
  datatype Turn =
    | Arrival(event: Event, at: int)
    | OtherReplica(now: int, locked: set<EventId>, replies: nat -> Reply)

  predicate NoArrival(turns: seq<Turn>) {
    forall i :: 0 <= i < |turns| ==> !turns[i].Arrival?
  }

  class OutboxRelay {
    var rows: Table
    var nextId: EventId

    ghost predicate Valid()
      reads this
    {
      TableOk(rows, nextId)
    }

    constructor ()
      ensures Valid() && rows == map[]
    {
      rows, nextId := map[], 0;
    }

    /** Appends one pending row under a fresh id; no other row moves. */
    method Enqueue(event: Event, now: int) returns (id: EventId)
      requires Valid()
      modifies this
      ensures Valid()
      ensures id !in old(rows) && rows == old(rows)[id := NewRow(event, now)]
      ensures forall other :: other in old(rows) ==> other < id
      ensures old(nextId) <= id < nextId
    {
      id := nextId;
      rows := rows[id := NewRow(event, now)];
      nextId := nextId + 1;
    }

    /**
     * One batch transaction. If every publish is confirmed the whole batch commits, each row
     * settled by its own confirm; if anything else happens not one row changes.
     */
    method DrainBatch(now: int, locked: set<EventId>, replies: nat -> Reply)
      returns (result: DrainResult, ghost ids: seq<EventId>)
      requires Valid()
      modifies this`rows
      ensures Valid() && rows.Keys == old(rows).Keys
      ensures IsClaim(old(rows), locked, now, ids)
      ensures result.Drained? <==> AllConfirmed(replies, |ids|)
      ensures result.Drained? ==>
                result.claimed == |ids| && rows == SettleAll(old(rows), ids, Confirms(replies, |ids|), now)
      ensures Backlog(rows, nextId) <= Backlog(old(rows), nextId)
      ensures result.Drained? && result.claimed > 0 ==> Backlog(rows, nextId) < Backlog(old(rows), nextId)
      ensures !result.Drained? ==> rows == old(rows)
    {
      var claimed := SelectPending(rows, locked, now);
      ids := claimed;
      var view;
      result, view := PublishAll(rows, claimed, now, replies);
      if result.Drained? {
        CommittedBatch(rows, nextId, locked, now, claimed, Confirms(replies, |claimed|));
        rows := view;
      }
    }

    /** What the others do between two batches: one transaction after the other. */
    method Meanwhile(turns: seq<Turn>)
      requires Valid()
      modifies this
      ensures Valid() && old(rows).Keys <= rows.Keys && old(nextId) <= nextId
      ensures NoArrival(turns) ==> nextId == old(nextId) && Backlog(rows, nextId) <= Backlog(old(rows), nextId)
    {
      for i := 0 to |turns|
        invariant Valid() && old(rows).Keys <= rows.Keys && old(nextId) <= nextId
        invariant NoArrival(turns) ==> nextId == old(nextId) && Backlog(rows, nextId) <= Backlog(old(rows), nextId)
      {
        match turns[i]
        case Arrival(event, at) =>
          assert turns[i].Arrival? && !NoArrival(turns);
          var id := Enqueue(event, at);
        case OtherReplica(now, locked, replies) =>
          ghost var ids;
          var result;
          result, ids := DrainBatch(now, locked, replies);
      }
    }

    /**
     * The drain loop of one tick, while others enqueue and other replicas commit between its batches.
     * It terminates for every broker behaviour and every clock once nothing more is enqueued, and
     * when it ends without an error no unlocked row is due at the time of the last batch.
     */
    method DrainTick(
      clock: nat -> int, locked: nat -> set<EventId>, replies: nat -> (nat -> Reply),
      others: nat -> seq<Turn>, ghost quiet: nat)
      returns (result: DrainResult, batches: nat)
      requires Valid()
      requires forall i: nat :: i >= quiet ==> NoArrival(others(i))
      modifies this
      ensures Valid() && old(rows).Keys <= rows.Keys
      ensures result.Drained? ==> forall id :: Eligible(rows, id, clock(batches)) ==> id in locked(batches)
    {
      batches := 0;
      while true
        invariant Valid() && old(rows).Keys <= rows.Keys
        decreases if batches < quiet then quiet - batches else 0, Backlog(rows, nextId)
      {
        Meanwhile(others(batches));
        ghost var ids;
        result, ids := DrainBatch(clock(batches), locked(batches), replies(batches));
        if !result.Drained? || result.claimed == 0 {
          return;
        }
        batches := batches + 1;
      }
    }
  }
}
