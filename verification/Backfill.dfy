/**
 * The resumable backfill that branches, commits, pull requests, workflows and runs all share: a page
 * chain walked from a stored cursor, each page's rows committed together with the next cursor, and the
 * first page's ETag kept to skip an unchanged chain.
 */
module Backfill {
  import opened Wrappers

  type Key = int
  type Item = int
  type Etag = int

  type Rows = map<Key, Item>

  /** What GitHub serves: a fixed finite chain of pages, and the first page's ETag if it sends one. */
  datatype Chain = Chain(pages: seq<Rows>, etag: Option<Etag>)

  /** An item that shows up on both pages is the same item. */
  predicate Agree(p: Rows, q: Rows) {
    forall k :: k in p && k in q ==> p[k] == q[k]
  }

  /** A chain has a first page, and its pages agree. */
  ghost predicate ChainOk(c: Chain) {
    && |c.pages| > 0
    && forall i, j {:trigger Agree(c.pages[i], c.pages[j])} ::
         0 <= i < |c.pages| && 0 <= j < |c.pages| ==> Agree(c.pages[i], c.pages[j])
  }

  datatype SyncStatus = Idle | Syncing | Errored

  /** The fact table and the resource's `repository_sync_state` row. */
  datatype Store = Store(table: Rows, cursor: Option<nat>, etag: Option<Etag>, status: SyncStatus)

  /** Where one sync stands. */
  datatype Position =
    | Fetching(page: nat, firstPage: bool, requestEtag: Option<Etag>)
    | Finishing

  function Begin(s: Store): (Store, Position) {
    (s.(status := Syncing),
     if s.cursor.Some? then Fetching(s.cursor.value, false, None) else Fetching(0, true, s.etag))
  }

  function NextPage(c: Chain, i: nat): Option<nat> {
    if i + 1 < |c.pages| then Some(i + 1) else None
  }

  /** One page transaction: the page's rows, the next cursor, and on a first page the new ETag. */
  function StorePage(c: Chain, s: Store, i: nat, firstPage: bool): Store
    requires i < |c.pages|
  {
    s.(table := s.table + c.pages[i],
       cursor := NextPage(c, i),
       etag := if firstPage && c.etag.Some? then c.etag else s.etag)
  }

  function After(c: Chain, i: nat): Position {
    if NextPage(c, i).Some? then Fetching(i + 1, false, None) else Finishing
  }

  function Finish(s: Store): Store {
    s.(cursor := None, status := Idle)
  }

  // ---- Soundness of what is stored ----

  predicate Holds(table: Rows, page: Rows) {
    forall k :: k in page ==> k in table && table[k] == page[k]
  }

  /** Every page before page n is stored. */
  ghost predicate HeldBelow(c: Chain, table: Rows, n: nat) {
    n <= |c.pages| && forall j {:trigger Holds(table, c.pages[j])} :: 0 <= j < n ==> Holds(table, c.pages[j])
  }

  ghost predicate Complete(c: Chain, table: Rows) {
    HeldBelow(c, table, |c.pages|)
  }

  /** What a stored cursor or ETag entitles a later sync to believe. */
  ghost predicate Resumable(c: Chain, s: Store) {
    && (s.cursor.Some? ==> 0 < s.cursor.value < |c.pages| && HeldBelow(c, s.table, s.cursor.value))
    && (s.cursor.None? && s.etag.Some? ==> Complete(c, s.table))
  }

  ghost predicate PositionOk(c: Chain, table: Rows, p: Position) {
    match p
    case Fetching(i, firstPage, requestEtag) =>
      && i < |c.pages| && HeldBelow(c, table, i)
      && (requestEtag.Some? ==> Complete(c, table))
    case Finishing => Complete(c, table)
  }

  predicate InChain(c: Chain, k: Key, item: Item) {
    exists j :: 0 <= j < |c.pages| && k in c.pages[j] && item == c.pages[j][k]
  }

  /** Nothing but chain items and what was there before. */
  ghost predicate Faithful(c: Chain, base: Rows, table: Rows) {
    && base.Keys <= table.Keys
    && forall k :: k in table ==> (k in base && table[k] == base[k]) || InChain(c, k, table[k])
  }

  /** One more page: everything before it and itself is stored, so the next cursor is earned, and is stored. */
  lemma PageAdvances(c: Chain, s: Store, i: nat, firstPage: bool)
    requires ChainOk(c) && i < |c.pages| && HeldBelow(c, s.table, i)
    ensures StorePage(c, s, i, firstPage) == Store(
              s.table + c.pages[i],
              if i == |c.pages| - 1 then None else Some(i + 1),
              if c.etag == None || !firstPage then s.etag else c.etag,
              s.status)
    ensures Resumable(c, StorePage(c, s, i, firstPage))
    ensures PositionOk(c, StorePage(c, s, i, firstPage).table, After(c, i))
  {
    OneMoreHeld(c, s.table, i);
  }

  /** A page of the chain overwrites no page before it. */
  lemma OneMoreHeld(c: Chain, table: Rows, i: nat)
    requires ChainOk(c) && i < |c.pages| && HeldBelow(c, table, i)
    ensures HeldBelow(c, table + c.pages[i], i + 1)
  {
    forall j | 0 <= j <= i ensures Holds(table + c.pages[i], c.pages[j]) {
      assert Agree(c.pages[i], c.pages[j]) && (j < i ==> Holds(table, c.pages[j]));
    }
  }

  /** No page of the chain takes anything back. */
  lemma HeldStays(c: Chain, table: Rows, i: nat, n: nat)
    requires ChainOk(c) && i < |c.pages| && HeldBelow(c, table, n)
    ensures HeldBelow(c, table + c.pages[i], n)
  {
    forall j | 0 <= j < n ensures Holds(table + c.pages[i], c.pages[j]) {
      assert Agree(c.pages[i], c.pages[j]) && Holds(table, c.pages[j]);
    }
  }

  lemma StoringIsFaithful(c: Chain, base: Rows, table: Rows, i: nat)
    requires Faithful(c, base, table) && i < |c.pages|
    ensures Faithful(c, base, table + c.pages[i])
  {}

  // ---- Any number of syncs of the same resource, with errors and crashes ----

  type Syncer = nat

  datatype State = State(store: Store, syncs: map<Syncer, Position>, finished: nat)

  datatype Step =
    | BeginSync(syncer: Syncer)
    | Page(syncer: Syncer)
    | NotModified(syncer: Syncer)
    | FinishSync(syncer: Syncer)
    | RecordError(syncer: Syncer)
    | Crash(syncer: Syncer)

  predicate Enabled(c: Chain, s: State, step: Step) {
    match step
    case BeginSync(w) => w !in s.syncs
    case Page(w) => w in s.syncs && s.syncs[w].Fetching? && s.syncs[w].page < |c.pages|
    case NotModified(w) => w in s.syncs && s.syncs[w].Fetching? && s.syncs[w].requestEtag.Some?
    case FinishSync(w) => w in s.syncs && s.syncs[w].Finishing?
    case RecordError(w) => w in s.syncs
    case Crash(w) => w in s.syncs
  }

  function Apply(c: Chain, s: State, step: Step): State
    requires Enabled(c, s, step)
  {
    match step
    case BeginSync(w) =>
      var (store, p) := Begin(s.store);
      s.(store := store, syncs := s.syncs[w := p])
    case Page(w) =>
      var p := s.syncs[w];
      s.(store := StorePage(c, s.store, p.page, p.firstPage), syncs := s.syncs[w := After(c, p.page)])
    case NotModified(w) => s.(syncs := s.syncs[w := Finishing])
    case FinishSync(w) => s.(store := Finish(s.store), syncs := s.syncs - {w}, finished := s.finished + 1)
    case RecordError(w) => s.(store := s.store.(status := Errored), syncs := s.syncs - {w})
    case Crash(w) => s.(syncs := s.syncs - {w})
  }

  ghost predicate Inv(c: Chain, s: State) {
    && Resumable(c, s.store)
    && (forall w :: w in s.syncs ==> PositionOk(c, s.store.table, s.syncs[w]))
    && (s.finished > 0 ==> Complete(c, s.store.table))
  }

  lemma OtherStepKeepsInv(c: Chain, s: State, step: Step)
    requires ChainOk(c) && Inv(c, s) && Enabled(c, s, step) && !step.Page?
    ensures Inv(c, Apply(c, s, step))
  {
    assert HeldBelow(c, s.store.table, 0);
    forall w | w in Apply(c, s, step).syncs ensures PositionOk(c, s.store.table, Apply(c, s, step).syncs[w]) {
      assert w in s.syncs ==> PositionOk(c, s.store.table, s.syncs[w]);
    }
  }

  lemma PageKeepsInv(c: Chain, s: State, step: Step)
    requires ChainOk(c) && Inv(c, s) && Enabled(c, s, step) && step.Page?
    ensures Inv(c, Apply(c, s, step))
  {
    var w, i := step.syncer, s.syncs[step.syncer].page;
    assert PositionOk(c, s.store.table, s.syncs[w]);
    PageAdvances(c, s.store, i, s.syncs[w].firstPage);
    forall v | v in s.syncs && v != w ensures PositionOk(c, s.store.table + c.pages[i], s.syncs[v]) {
      assert PositionOk(c, s.store.table, s.syncs[v]);
      PositionStays(c, s.store.table, i, s.syncs[v]);
    }
    if s.finished > 0 { HeldStays(c, s.store.table, i, |c.pages|); }
  }

  lemma PositionStays(c: Chain, table: Rows, i: nat, p: Position)
    requires ChainOk(c) && i < |c.pages| && PositionOk(c, table, p)
    ensures PositionOk(c, table + c.pages[i], p)
  {
    HeldStays(c, table, i, if p.Fetching? then p.page else |c.pages|);
    if p.Fetching? && p.requestEtag.Some? { HeldStays(c, table, i, |c.pages|); }
  }

  lemma StepKeepsInv(c: Chain, s: State, step: Step)
    requires ChainOk(c) && Inv(c, s) && Enabled(c, s, step)
    ensures Inv(c, Apply(c, s, step))
  {
    if step.Page? { PageKeepsInv(c, s, step); } else { OtherStepKeepsInv(c, s, step); }
  }

  ghost predicate Next(c: Chain, s: State, step: Step, s': State) {
    Enabled(c, s, step) && s' == Apply(c, s, step)
  }

  /** A run over any table, from a resource that has never been synced. */
  ghost predicate Run(c: Chain, base: Rows, states: seq<State>, steps: seq<Step>) {
    && |states| == |steps| + 1
    && states[0] == State(Store(base, None, None, Idle), map[], 0)
    && forall i :: 0 <= i < |steps| ==> Next(c, states[i], steps[i], states[i + 1])
  }

  lemma {:induction false} RunKeepsInv(c: Chain, base: Rows, states: seq<State>, steps: seq<Step>, n: nat)
    requires ChainOk(c) && Run(c, base, states, steps) && n < |states|
    ensures Inv(c, states[n]) && Faithful(c, base, states[n].store.table)
  {
    if n > 0 {
      var k := n - 1;
      RunKeepsInv(c, base, states, steps, k);
      assert Next(c, states[k], steps[k], states[k + 1]);
      StepKeepsInv(c, states[k], steps[k]);
    }
  }

  /**
   * Resume is sound. Whatever errors, crashes, restarts and overlapping syncs came before: a stored
   * cursor has every earlier page behind it, an ETag without a cursor has the whole chain behind it,
   * and a sync finishes, by the last page or by a 304, only over a complete table that holds the
   * chain's items and otherwise exactly what was there before.
   */
  lemma ResumeIsSound(c: Chain, base: Rows, states: seq<State>, steps: seq<Step>, n: nat)
    requires ChainOk(c) && Run(c, base, states, steps) && n < |states|
    ensures var s := states[n].store;
            && (s.cursor.Some? ==> HeldBelow(c, s.table, s.cursor.value))
            && (s.cursor.None? && s.etag.Some? ==> Complete(c, s.table))
            && (n < |steps| && steps[n].FinishSync? ==> Complete(c, s.table))
            && (n < |steps| && steps[n].NotModified? ==> Complete(c, s.table))
            && Faithful(c, base, s.table)
  {
    RunKeepsInv(c, base, states, steps, n);
    if n < |steps| {
      assert Next(c, states[n], steps[n], states[n + 1]);
      if steps[n].FinishSync? || steps[n].NotModified? {
        assert PositionOk(c, states[n].store.table, states[n].syncs[steps[n].syncer]);
      }
    }
  }

  // ---- The page loop itself ----

  /** A table after the rows of n pages from page i on, each page over the earlier ones. */
  function Overlaid(table: Rows, pages: seq<Rows>, i: nat, n: nat): Rows
    requires i + n <= |pages|
  {
    if n == 0 then table else Overlaid(table, pages, i, n - 1) + pages[i + n - 1]
  }

  /** Where a sync starts, as the stored cursor has it. */
  function StartOf(s: Store): nat {
    if s.cursor.Some? then s.cursor.value else 0
  }

  /** What n page transactions from the stored cursor leave of table, cursor and ETag. */
  ghost predicate Progressed(c: Chain, s: Store, s': Store, n: nat) {
    var start := StartOf(s);
    && start + n <= |c.pages|
    && s'.table == Overlaid(s.table, c.pages, start, n)
    && s'.cursor == (if n == 0 then s.cursor else if start + n == |c.pages| then None else Some(start + n))
    && s'.etag == (if n > 0 && s.cursor.None? && c.etag.Some? then c.etag else s.etag)
  }

  /** One more page transaction is one more of them. */
  lemma ProgressesOn(c: Chain, s: Store, t: Store, n: nat, firstPage: bool)
    requires Progressed(c, s, t, n) && StartOf(s) + n < |c.pages| && (firstPage <==> n == 0 && s.cursor.None?)
    ensures Progressed(c, s, StorePage(c, t, StartOf(s) + n, firstPage), n + 1)
  {}

  /** What is stored after n page transactions of a sync that started from `was`. */
  ghost predicate Underway(c: Chain, was: Store, s: Store, n: nat) {
    && Progressed(c, was, s, n) && HeldBelow(c, s.table, StartOf(was) + n)
    && Resumable(c, s) && Faithful(c, was.table, s.table)
  }

  /** The store after the first n page transactions of a sync. */
  function Stages(c: Chain, was: Store, n: nat): Store
    requires StartOf(was) + n <= |c.pages|
  {
    if n == 0 then Begin(was).0
    else StorePage(c, Stages(c, was, n - 1), StartOf(was) + n - 1, n == 1 && was.cursor.None?)
  }

  lemma {:induction false} StagesAreUnderway(c: Chain, was: Store, n: nat)
    requires ChainOk(c) && Resumable(c, was) && StartOf(was) + n <= |c.pages|
    ensures Underway(c, was, Stages(c, was, n), n)
  {
    if n == 0 {
      StartIsUnderway(c, was, Begin(was).0);
    } else {
      StagesAreUnderway(c, was, n - 1);
      PageIsUnderway(c, was, Stages(c, was, n - 1), n - 1, n == 1 && was.cursor.None?);
    }
  }

  lemma {:induction false} StartIsUnderway(c: Chain, was: Store, s: Store)
    requires ChainOk(c) && Resumable(c, was) && s == was.(status := s.status)
    ensures StartOf(was) < |c.pages| && Underway(c, was, s, 0)
  {}

  lemma {:induction false} PageIsUnderway(c: Chain, was: Store, s: Store, n: nat, firstPage: bool)
    requires ChainOk(c) && Underway(c, was, s, n) && StartOf(was) + n < |c.pages|
    requires firstPage <==> n == 0 && was.cursor.None?
    ensures Underway(c, was, StorePage(c, s, StartOf(was) + n, firstPage), n + 1)
  {
    ProgressesOn(c, was, s, n, firstPage);
    PageAdvances(c, s, StartOf(was) + n, firstPage);
    StoringIsFaithful(c, was.table, s.table, StartOf(was) + n);
  }

  // ---- One sync by itself ----

  /** s' is s after syncer w has begun and stored n pages, with nobody else about. */
  ghost predicate AfterPages(c: Chain, s: State, w: Syncer, n: nat, s': State) {
    if n == 0 then Enabled(c, s, BeginSync(w)) && s' == Apply(c, s, BeginSync(w))
    else exists mid :: AfterPages(c, s, w, n - 1, mid) && Next(c, mid, Page(w), s')
  }

  /** Where a sync stands that started from `was` and has stored n pages. */
  function PositionAfter(c: Chain, was: Store, n: nat): Position {
    if n > 0 && StartOf(was) + n == |c.pages| then Finishing
    else if n > 0 then Fetching(StartOf(was) + n, false, None)
    else Fetching(StartOf(was), was.cursor == None, if was.cursor == None then was.etag else None)
  }

  /** The state in which syncer w stands there and nothing else has changed. */
  function LoneState(c: Chain, s: State, w: Syncer, n: nat): State
    requires StartOf(s.store) + n <= |c.pages|
  {
    State(Stages(c, s.store, n), s.syncs[w := PositionAfter(c, s.store, n)], s.finished)
  }

  lemma {:induction false} OneMorePage(c: Chain, s: State, w: Syncer, n: nat, s': State)
    requires StartOf(s.store) + n <= |c.pages| && Next(c, LoneState(c, s, w, n), Page(w), s')
    ensures StartOf(s.store) + n < |c.pages| && s' == LoneState(c, s, w, n + 1)
  {
    var p := LoneState(c, s, w, n).syncs[w];
    assert p.Fetching? && p.page == StartOf(s.store) + n && (p.firstPage <==> n == 0 && s.store.cursor.None?);
    assert s'.syncs == s.syncs[w := After(c, p.page)];
  }

  /**
   * The steps of one syncer do what the loop does: from the stored cursor page by page, with the ETag in the
   * first request of a fresh chain alone.
   */
  lemma {:induction false} LoneSyncIsTheLoop(c: Chain, s: State, w: Syncer, n: nat, s': State)
    requires AfterPages(c, s, w, n, s') && StartOf(s.store) <= |c.pages|
    ensures w !in s.syncs && StartOf(s.store) + n <= |c.pages| && s' == LoneState(c, s, w, n)
  {
    if n > 0 {
      var mid :| AfterPages(c, s, w, n - 1, mid) && Next(c, mid, Page(w), s');
      LoneSyncIsTheLoop(c, s, w, n - 1, mid);
      OneMorePage(c, s, w, n - 1, s');
    }
  }

  /** Then it finishes after the last page, or records an error at any time. */
  lemma {:induction false} LoneSyncEnds(c: Chain, s: State, w: Syncer, n: nat)
    requires w !in s.syncs && StartOf(s.store) + n <= |c.pages|
    ensures var t := LoneState(c, s, w, n);
            && (n > 0 && StartOf(s.store) + n == |c.pages| ==>
                  && Enabled(c, t, FinishSync(w))
                  && Apply(c, t, FinishSync(w))
                     == State(t.store.(cursor := None, status := Idle), s.syncs, s.finished + 1))
            && Enabled(c, t, RecordError(w))
            && Apply(c, t, RecordError(w)) == State(t.store.(status := Errored), s.syncs, s.finished)
  {
    assert LoneState(c, s, w, n).syncs - {w} == s.syncs;
  }

  datatype Reply = FullPage | Unchanged | RequestFailed | CommitFailed

  /** None of the first n requests failed. */
  ghost predicate Succeeded(replies: nat -> Reply, n: nat) {
    forall i: nat :: i < n ==> replies(i) != RequestFailed && replies(i) != CommitFailed
  }

  /** The first request was answered with "not modified". */
  ghost predicate Unmodified(was: Store, replies: nat -> Reply) {
    was.cursor.None? && was.etag.Some? && replies(0) == Unchanged
  }

  /** The pages a sync stored, over what was there, and the ETag it kept. */
  ghost predicate StoredPages(c: Chain, was: Store, s: Store, n: nat) {
    && Resumable(c, s) && Faithful(c, was.table, s.table)
    && StartOf(was) + n <= |c.pages|
    && s.table == Overlaid(was.table, c.pages, StartOf(was), n)
    && s.etag == if n > 0 && was.cursor.None? && c.etag.Some? then c.etag else was.etag
  }

  /** Success: a complete table, by the last page or by an unmodified chain. */
  ghost predicate EndsWell(c: Chain, was: Store, s: Store, replies: nat -> Reply, n: nat) {
    && StoredPages(c, was, s, n) && Succeeded(replies, n)
    && Complete(c, s.table) && s.cursor == None && s.status == Idle
    && (StartOf(was) + n == |c.pages| || (n == 0 && Unmodified(was, replies)))
  }

  /** Failure: the request after n stored pages failed, and the cursor resumes right there. */
  ghost predicate EndsBadly(c: Chain, was: Store, s: Store, replies: nat -> Reply, n: nat) {
    && StoredPages(c, was, s, n) && Succeeded(replies, n)
    && (replies(n) == RequestFailed || replies(n) == CommitFailed)
    && StartOf(was) + n < |c.pages| && s.status == Errored
    && s.cursor == if n == 0 then was.cursor else Some(StartOf(was) + n)
  }

  lemma {:induction false} FinishingEndsWell(c: Chain, was: Store, replies: nat -> Reply, n: nat)
    requires ChainOk(c) && Resumable(c, was) && Succeeded(replies, n) && StartOf(was) + n <= |c.pages|
    requires StartOf(was) + n == |c.pages| || (n == 0 && Unmodified(was, replies))
    ensures EndsWell(c, was, Finish(Stages(c, was, n)), replies, n)
  {
    StagesAreUnderway(c, was, n);
  }

  lemma {:induction false} FailingEndsBadly(c: Chain, was: Store, replies: nat -> Reply, n: nat)
    requires ChainOk(c) && Resumable(c, was) && Succeeded(replies, n) && StartOf(was) + n < |c.pages|
    requires replies(n) == RequestFailed || replies(n) == CommitFailed
    ensures EndsBadly(c, was, Stages(c, was, n).(status := Errored), replies, n)
  {
    StagesAreUnderway(c, was, n);
  }

  class Resource {
    var table: Rows
    var cursor: Option<nat>
    var etag: Option<Etag>
    var status: SyncStatus

    ghost function Contents(): Store
      reads this
    {
      Store(table, cursor, etag, status)
    }

    constructor (base: Rows)
      ensures Contents() == Store(base, None, None, Idle)
    {
      table, cursor, etag, status := base, None, None, Idle;
    }

    /**
     * One sync call. From any resumable state it ends, leaves a resumable state, and reports success
     * only over a complete table; without faults it succeeds. The n pages it stored are those from the
     * old cursor on: all of them, or none if the chain is unchanged, or those before the request that failed.
     */
    method Sync(c: Chain, replies: nat -> Reply) returns (ok: bool, n: nat)
      requires ChainOk(c) && Resumable(c, Contents())
      modifies this
      ensures ok ==> EndsWell(c, old(Contents()), Contents(), replies, n)
      ensures !ok ==> EndsBadly(c, old(Contents()), Contents(), replies, n)
      ensures (forall i: nat :: replies(i) == FullPage || replies(i) == Unchanged) ==> ok
      ensures Unmodified(old(Contents()), replies) ==> ok && n == 0
    {
      ghost var was := Contents();
      ok, n := WalkPages(c, replies);
      if ok {
        FinishingEndsWell(c, was, replies, n);
        cursor, status := None, Idle;
        assert Contents() == Finish(Stages(c, was, n));
      } else {
        FailingEndsBadly(c, was, replies, n);
        status := Errored;
        assert Contents() == Stages(c, was, n).(status := Errored);
      }
    }

    /** The page loop, from the stored cursor to the last page, an unmodified chain or a failure. */
    method WalkPages(c: Chain, replies: nat -> Reply) returns (ok: bool, n: nat)
      requires StartOf(Contents()) < |c.pages|
      modifies this
      ensures StartOf(old(Contents())) + n <= |c.pages| && Succeeded(replies, n)
      ensures Contents() == Stages(c, old(Contents()), n)
      ensures ok ==> StartOf(old(Contents())) + n == |c.pages| || (n == 0 && Unmodified(old(Contents()), replies))
      ensures !ok ==> StartOf(old(Contents())) + n < |c.pages|
      ensures !ok ==> replies(n) == RequestFailed || replies(n) == CommitFailed
      ensures Unmodified(old(Contents()), replies) ==> ok && n == 0
    {
      ghost var was := Contents();
      status := Syncing;
      var firstPage := cursor.None?;
      var page := if cursor.Some? then cursor.value else 0;
      var requestEtag := if firstPage then etag else None;
      n := 0;
      while true
        invariant page == StartOf(was) + n < |c.pages|
        invariant Contents() == Stages(c, was, n)
        invariant firstPage <==> n == 0 && was.cursor.None?
        invariant requestEtag == if firstPage then was.etag else None
        invariant Succeeded(replies, n)
        invariant n > 0 ==> !Unmodified(was, replies)
        decreases |c.pages| - page
      {
        var reply := replies(n);
        if reply == RequestFailed || reply == CommitFailed {
          return false, n;
        }
        if reply == Unchanged && requestEtag.Some? {
          break;
        }
        var next := CommitPage(c, page, firstPage);
        firstPage, n := false, n + 1;
        assert Contents() == Stages(c, was, n);
        if next.None? {
          break;
        }
        page, requestEtag := next.value, None;
      }
      ok := true;
    }

    /** The transaction of one page. */
    method CommitPage(c: Chain, page: nat, firstPage: bool) returns (next: Option<nat>)
      requires page < |c.pages|
      modifies this
      ensures Contents() == StorePage(c, old(Contents()), page, firstPage) && next == cursor
    {
      next := NextPage(c, page);
      table := table + c.pages[page];
      cursor := next;
      if firstPage && c.etag.Some? { etag := c.etag; }
    }
  }
}
