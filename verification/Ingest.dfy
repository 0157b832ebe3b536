/**
 * Ingesting workflow runs: the upsert of the run row, the completion event, and the inferred
 * production deployment, all written by one transaction.
 */
module Ingest {
  import opened Wrappers
  import opened Outbox

  /** The parts of a `workflow_run` payload that decide what is stored and emitted. */
  datatype Payload = Payload(
    key: RunKey,
    status: string,
    conclusion: Option<string>,
    event: string,
    headSha: string,
    headBranch: Option<string>,
    defaultBranch: string,
    updatedAt: Option<int>,
    workflowId: Option<int>)

  datatype RunRow = RunRow(
    status: string,
    conclusion: Option<string>,
    event: string,
    headSha: string,
    headBranch: Option<string>,
    isDefaultBranch: bool,
    workflowId: Option<int>,
    completedAt: Option<int>)

  /** An inferred deployment (source 'workflow_inferred', environment 'production'). */
  datatype Deployment = Deployment(run: RunKey, sha: string, deployedAt: Option<int>)

  predicate Completed(status: string) {
    status == "completed"
  }

  function Coalesce<T>(a: Option<T>, b: Option<T>): Option<T> {
    if a.Some? then a else b
  }

  function CompletedAt(p: Payload): Option<int> {
    if Completed(p.status) then p.updatedAt else None
  }

  predicate IsDefaultBranch(p: Payload) {
    p.headBranch == Some(p.defaultBranch)
  }

  /** INSERT ... ON CONFLICT DO UPDATE: everything is overwritten except the coalesced columns. */
  function Upsert(existing: Option<RunRow>, p: Payload): RunRow {
    RunRow(
      p.status, p.conclusion, p.event, p.headSha, p.headBranch, IsDefaultBranch(p),
      Coalesce(p.workflowId, if existing.Some? then existing.value.workflowId else None),
      Coalesce(CompletedAt(p), if existing.Some? then existing.value.completedAt else None))
  }

  predicate NewlyCompleted(p: Payload, previous: Option<string>) {
    Completed(p.status) && !(previous.Some? && Completed(previous.value))
  }

  predicate Deploys(p: Payload) {
    && IsDefaultBranch(p)
    && p.conclusion == Some("success")
    && p.event in {"push", "release", "workflow_dispatch"}
  }

  function DeploymentOf(p: Payload): Deployment {
    Deployment(p.key, p.headSha, CompletedAt(p))
  }

  type Log = map<EventId, Event>

  ghost predicate Logged(log: Log, event: Event) {
    exists id :: id in log && log[id] == event
  }

  ghost predicate LoggedOnce(log: Log, event: Event) {
    && Logged(log, event)
    && forall i, j :: i in log && j in log && log[i] == event && log[j] == event ==> i == j
  }

  predicate Deployed(deployments: seq<Deployment>, run: RunKey) {
    exists i :: 0 <= i < |deployments| && deployments[i].run == run
  }

  // ---- Concurrent ingests ----

  /** Where a client stands with the run it is ingesting. */
  datatype Phase =
    | Ready
    | HasRead(payload: Payload, previous: Option<string>)
    | HasWritten(payload: Payload, previous: Option<string>)

  /** An open transaction: uncommitted run rows (whose row locks it holds), deployments and events. */
  datatype Tx = Tx(runs: map<RunKey, RunRow>, deployments: seq<Deployment>, events: Log, phase: Phase)

  type Client = nat

  datatype State = State(
    runs: map<RunKey, RunRow>,
    deployments: seq<Deployment>,
    log: Log,
    txs: map<Client, Tx>,
    nextId: EventId)

  const INIT := State(map[], [], map[], map[], 0)

  datatype Step =
    | Begin(client: Client)
    | ReadPrevious(client: Client, payload: Payload)
    | UpsertRun(client: Client)
    | Emit(client: Client)
    | Commit(client: Client)
    | Abort(client: Client)

  /** The row a transaction sees: its own write, else the committed row (read committed). */
  function Visible(s: State, tx: Tx, key: RunKey): Option<RunRow> {
    if key in tx.runs then Some(tx.runs[key])
    else if key in s.runs then Some(s.runs[key])
    else None
  }

  ghost predicate LockFree(s: State, client: Client, key: RunKey) {
    forall c :: c in s.txs && c != client ==> key !in s.txs[c].runs
  }

  /**
   * A transaction may ingest several runs (a backfill page). It may fail at any point; it may
   * upsert only when no other transaction holds the row, and commit only between runs.
   */
  ghost predicate Enabled(s: State, step: Step) {
    match step
    case Begin(c) => c !in s.txs
    case ReadPrevious(c, p) => c in s.txs && s.txs[c].phase.Ready?
    case UpsertRun(c) => c in s.txs && s.txs[c].phase.HasRead? && LockFree(s, c, s.txs[c].phase.payload.key)
    case Emit(c) => c in s.txs && s.txs[c].phase.HasWritten?
    case Commit(c) => c in s.txs && s.txs[c].phase.Ready?
    case Abort(c) => c in s.txs
  }

  /** The completion event, and the deployment with its event unless the unique index refuses it. */
  function EmitInto(tx: Tx, committed: seq<Deployment>, nextId: EventId): Tx
    requires tx.phase.HasWritten?
  {
    var p := tx.phase.payload;
    if !NewlyCompleted(p, tx.phase.previous) then tx.(phase := Ready)
    else
      var emitted := tx.(events := tx.events[nextId := RunCompleted(p.key)], phase := Ready);
      if Deploys(p) && !Deployed(committed, p.key) && !Deployed(tx.deployments, p.key) then
        emitted.(deployments := emitted.deployments + [DeploymentOf(p)],
                 events := emitted.events[nextId + 1 := DeploymentRecorded(p.key)])
      else emitted
  }

  ghost function Apply(s: State, step: Step): State
    requires Enabled(s, step)
  {
    match step
    case Begin(c) => s.(txs := s.txs[c := Tx(map[], [], map[], Ready)])
    case ReadPrevious(c, p) =>
      var row := Visible(s, s.txs[c], p.key);
      s.(txs := s.txs[c := s.txs[c].(phase := HasRead(p, if row.Some? then Some(row.value.status) else None))])
    case UpsertRun(c) =>
      var tx := s.txs[c];
      var p := tx.phase.payload;
      s.(txs := s.txs[c := tx.(runs := tx.runs[p.key := Upsert(Visible(s, tx, p.key), p)],
                               phase := HasWritten(p, tx.phase.previous))])
    case Emit(c) =>
      s.(txs := s.txs[c := EmitInto(s.txs[c], s.deployments, s.nextId)], nextId := s.nextId + 2)
    case Commit(c) =>
      var tx := s.txs[c];
      s.(runs := s.runs + tx.runs, deployments := s.deployments + tx.deployments,
         log := s.log + tx.events, txs := s.txs - {c})
    case Abort(c) => s.(txs := s.txs - {c})
  }

  // ---- Invariant ----

  /** Every stored completed run has its event in the committed log. */
  ghost predicate CompletionsLogged(s: State) {
    forall k :: k in s.runs && Completed(s.runs[k].status) ==> Logged(s.log, RunCompleted(k))
  }

  ghost predicate Awaiting(tx: Tx, k: RunKey) {
    tx.phase.HasWritten? && tx.phase.payload.key == k && NewlyCompleted(tx.phase.payload, tx.phase.previous)
  }

  /** A transaction's completed rows have their events, committed, buffered, or about to be emitted. */
  ghost predicate TxCompletionsLogged(log: Log, tx: Tx) {
    && (forall k :: k in tx.runs && Completed(tx.runs[k].status) ==>
          Logged(log, RunCompleted(k)) || Logged(tx.events, RunCompleted(k)) || Awaiting(tx, k))
    && (!tx.phase.Ready? && tx.phase.previous.Some? && Completed(tx.phase.previous.value) ==>
          Logged(log, RunCompleted(tx.phase.payload.key)) || Logged(tx.events, RunCompleted(tx.phase.payload.key)))
    && (tx.phase.HasWritten? ==> tx.phase.payload.key in tx.runs)
  }

  /** At most one deployment per run, and exactly one event for each deployment and none besides. */
  ghost predicate DeploymentsMatch(deployments: seq<Deployment>, log: Log) {
    && (forall i, j :: 0 <= i < j < |deployments| ==> deployments[i].run != deployments[j].run)
    && (forall k :: Deployed(deployments, k) ==> LoggedOnce(log, DeploymentRecorded(k)))
    && (forall k :: Logged(log, DeploymentRecorded(k)) ==> Deployed(deployments, k))
  }

  ghost predicate TxDeploymentsOk(s: State, tx: Tx) {
    && DeploymentsMatch(tx.deployments, tx.events)
    && (forall k :: Deployed(tx.deployments, k) ==> k in tx.runs && !Deployed(s.deployments, k))
  }

  /** Ids are drawn once: an uncommitted event shares no id with the committed log. */
  ghost predicate TxIdsFresh(s: State, tx: Tx) {
    && tx.events.Keys !! s.log.Keys
    && forall id :: id in tx.events ==> id < s.nextId
  }

  /** What an open transaction satisfies against the committed tables. */
  ghost predicate TxOk(s: State, tx: Tx) {
    TxCompletionsLogged(s.log, tx) && TxDeploymentsOk(s, tx) && TxIdsFresh(s, tx)
  }

  /** Two open transactions lock different run rows and draw different ids. */
  ghost predicate Apart(a: Tx, b: Tx) {
    a.runs.Keys !! b.runs.Keys && a.events.Keys !! b.events.Keys
  }

  ghost predicate TxsOk(s: State) {
    && (forall c :: c in s.txs ==> TxOk(s, s.txs[c]))
    && (forall c, d :: c in s.txs && d in s.txs && c != d ==> Apart(s.txs[c], s.txs[d]))
  }

  ghost predicate CommittedOk(s: State) {
    && CompletionsLogged(s)
    && DeploymentsMatch(s.deployments, s.log)
    && (forall id :: id in s.log ==> id < s.nextId)
  }

  ghost predicate Inv(s: State) {
    CommittedOk(s) && TxsOk(s)
  }

  // ---- Preservation, one step at a time ----

  lemma LoggedGrows(small: Log, big: Log, event: Event)
    requires Logged(small, event)
    requires forall id :: id in small ==> id in big && big[id] == small[id]
    ensures Logged(big, event)
  {}

  /** A step that only rewrites its own transaction needs only that transaction to stay in order. */
  lemma LocalStep(s: State, c: Client, tx': Tx, drawn: nat, s': State)
    requires Inv(s) && c in s.txs
    requires s' == s.(txs := s.txs[c := tx'], nextId := s.nextId + drawn)
    requires TxCompletionsLogged(s.log, tx') && TxDeploymentsOk(s, tx')
    requires forall k :: k in tx'.runs ==> k in s.txs[c].runs || LockFree(s, c, k)
    requires forall id :: id in tx'.events ==> id in s.txs[c].events || s.nextId <= id < s.nextId + drawn
    ensures Inv(s')
  {
    assert TxOk(s, s.txs[c]);
    assert TxOk(s', tx');
    forall d | d in s.txs && d != c ensures TxOk(s', s.txs[d]) && Apart(s.txs[d], tx') && Apart(tx', s.txs[d]) {
      assert TxOk(s, s.txs[d]);
      assert Apart(s.txs[d], s.txs[c]);
    }
    assert CommittedOk(s');
  }

  lemma ReadKeepsInv(s: State, step: Step)
    requires Inv(s) && Enabled(s, step) && step.ReadPrevious?
    ensures Inv(Apply(s, step))
  {
    LocalStep(s, step.client, Apply(s, step).txs[step.client], 0, Apply(s, step));
  }

  lemma UpsertKeepsInv(s: State, step: Step)
    requires Inv(s) && Enabled(s, step) && step.UpsertRun?
    ensures Inv(Apply(s, step))
  {
    LocalStep(s, step.client, Apply(s, step).txs[step.client], 0, Apply(s, step));
  }

  /** Adding one deployment with its event under a fresh id keeps the match. */
  lemma MatchExtends(deployments: seq<Deployment>, log: Log, d: Deployment, id: EventId)
    requires DeploymentsMatch(deployments, log) && !Deployed(deployments, d.run) && id !in log
    ensures DeploymentsMatch(deployments + [d], log[id := DeploymentRecorded(d.run)])
  {
    var ds, log' := deployments + [d], log[id := DeploymentRecorded(d.run)];
    assert !Logged(log, DeploymentRecorded(d.run));
    forall k | Deployed(ds, k) ensures LoggedOnce(log', DeploymentRecorded(k)) {
      if k == d.run {
        assert id in log' && log'[id] == DeploymentRecorded(k);
      } else {
        var i :| 0 <= i < |ds| && ds[i].run == k;
        assert deployments[i].run == k;
        assert LoggedOnce(log, DeploymentRecorded(k));
        LoggedGrows(log, log', DeploymentRecorded(k));
      }
    }
    forall k | Logged(log', DeploymentRecorded(k)) ensures Deployed(ds, k) {
      var i :| i in log' && log'[i] == DeploymentRecorded(k);
      if i == id {
        assert ds[|deployments|].run == k;
      } else {
        assert i in log && log[i] == DeploymentRecorded(k);
        assert Deployed(deployments, k);
        var j :| 0 <= j < |deployments| && deployments[j].run == k;
        assert ds[j].run == k;
      }
    }
  }

  /** An event of another kind under a fresh id does not disturb the match. */
  lemma MatchIgnoresRuns(deployments: seq<Deployment>, log: Log, run: RunKey, id: EventId)
    requires DeploymentsMatch(deployments, log) && id !in log
    ensures DeploymentsMatch(deployments, log[id := RunCompleted(run)])
  {
    var log' := log[id := RunCompleted(run)];
    forall k | Deployed(deployments, k) ensures LoggedOnce(log', DeploymentRecorded(k)) {
      assert LoggedOnce(log, DeploymentRecorded(k));
      LoggedGrows(log, log', DeploymentRecorded(k));
    }
    forall k | Logged(log', DeploymentRecorded(k)) ensures Logged(log, DeploymentRecorded(k)) {
      var i :| i in log' && log'[i] == DeploymentRecorded(k);
      assert i in log && log[i] == DeploymentRecorded(k);
    }
  }

  lemma EmitKeepsDeployments(s: State, tx: Tx)
    requires tx.phase.HasWritten? && tx.phase.payload.key in tx.runs && TxDeploymentsOk(s, tx)
    requires forall id :: id in tx.events ==> id < s.nextId
    ensures TxDeploymentsOk(s, EmitInto(tx, s.deployments, s.nextId))
  {
    var p := tx.phase.payload;
    var tx' := EmitInto(tx, s.deployments, s.nextId);
    if NewlyCompleted(p, tx.phase.previous) {
      MatchIgnoresRuns(tx.deployments, tx.events, p.key, s.nextId);
      if Deploys(p) && !Deployed(s.deployments, p.key) && !Deployed(tx.deployments, p.key) {
        MatchExtends(tx.deployments, tx.events[s.nextId := RunCompleted(p.key)], DeploymentOf(p), s.nextId + 1);
        forall k | Deployed(tx'.deployments, k) ensures k in tx.runs && !Deployed(s.deployments, k) {
          var i :| 0 <= i < |tx'.deployments| && tx'.deployments[i].run == k;
          if i < |tx.deployments| {
            assert tx.deployments[i].run == k;
            assert Deployed(tx.deployments, k);
          }
        }
      }
    }
  }

  lemma EmitKeepsCompletions(s: State, tx: Tx)
    requires tx.phase.HasWritten? && TxCompletionsLogged(s.log, tx)
    requires forall id :: id in tx.events ==> id < s.nextId
    ensures TxCompletionsLogged(s.log, EmitInto(tx, s.deployments, s.nextId))
  {
    var p := tx.phase.payload;
    var tx' := EmitInto(tx, s.deployments, s.nextId);
    if NewlyCompleted(p, tx.phase.previous) {
      assert s.nextId in tx'.events && tx'.events[s.nextId] == RunCompleted(p.key);
      forall k | Logged(tx.events, RunCompleted(k)) ensures Logged(tx'.events, RunCompleted(k)) {
        LoggedGrows(tx.events, tx'.events, RunCompleted(k));
      }
    }
  }

  lemma EmitDraws(tx: Tx, committed: seq<Deployment>, nextId: EventId)
    requires tx.phase.HasWritten?
    ensures var tx' := EmitInto(tx, committed, nextId);
            && tx'.runs == tx.runs
            && forall id :: id in tx'.events ==> id in tx.events || nextId <= id < nextId + 2
  {}

  lemma EmitKeepsInv(s: State, step: Step)
    requires Inv(s) && Enabled(s, step) && step.Emit?
    ensures Inv(Apply(s, step))
  {
    var tx := s.txs[step.client];
    assert TxOk(s, tx);
    EmitKeepsDeployments(s, tx);
    EmitKeepsCompletions(s, tx);
    EmitDraws(tx, s.deployments, s.nextId);
    var tx' := EmitInto(tx, s.deployments, s.nextId);
    LocalStep(s, step.client, tx', 2, Apply(s, step));
  }

  /** Two matched ledgers over different runs, with different ids, merge into a matched ledger. */
  lemma MatchMerges(ds1: seq<Deployment>, log1: Log, ds2: seq<Deployment>, log2: Log)
    requires DeploymentsMatch(ds1, log1) && DeploymentsMatch(ds2, log2)
    requires forall k :: !(Deployed(ds1, k) && Deployed(ds2, k))
    requires forall id :: !(id in log1 && id in log2)
    ensures DeploymentsMatch(ds1 + ds2, log1 + log2)
    ensures forall k :: Deployed(ds1 + ds2, k) <==> Deployed(ds1, k) || Deployed(ds2, k)
  {
    var ds, log := ds1 + ds2, log1 + log2;
    forall k ensures Deployed(ds, k) <==> Deployed(ds1, k) || Deployed(ds2, k) {
      if i :| 0 <= i < |ds1| && ds1[i].run == k { assert ds[i].run == k; }
      if i :| 0 <= i < |ds2| && ds2[i].run == k { assert ds[|ds1| + i].run == k; }
    }
    forall i, j | 0 <= i < j < |ds| ensures ds[i].run != ds[j].run {
      if i < |ds1| <= j {
        assert ds1[i].run == ds[i].run && ds2[j - |ds1|].run == ds[j].run;
        assert Deployed(ds1, ds[i].run) && Deployed(ds2, ds[j].run);
      }
    }
    forall k
      ensures Logged(log, DeploymentRecorded(k))
              <==> Logged(log1, DeploymentRecorded(k)) || Logged(log2, DeploymentRecorded(k))
    {
      if Logged(log1, DeploymentRecorded(k)) { LoggedGrows(log1, log, DeploymentRecorded(k)); }
      if Logged(log2, DeploymentRecorded(k)) { LoggedGrows(log2, log, DeploymentRecorded(k)); }
      if i :| i in log && log[i] == DeploymentRecorded(k) {
        assert (i in log1 && log1[i] == DeploymentRecorded(k)) || (i in log2 && log2[i] == DeploymentRecorded(k));
      }
    }
    forall k | Deployed(ds, k) ensures LoggedOnce(log, DeploymentRecorded(k)) {}
  }

  lemma CommitKeepsLedger(s: State, step: Step)
    requires Inv(s) && Enabled(s, step) && step.Commit?
    ensures DeploymentsMatch(Apply(s, step).deployments, Apply(s, step).log)
    ensures forall d :: d in s.txs && d != step.client ==> TxDeploymentsOk(Apply(s, step), s.txs[d])
  {
    var s' := Apply(s, step);
    var tx := s.txs[step.client];
    assert TxOk(s, tx);
    MatchMerges(s.deployments, s.log, tx.deployments, tx.events);
    forall d | d in s.txs && d != step.client ensures TxDeploymentsOk(s', s.txs[d]) {
      assert TxOk(s, s.txs[d]) && Apart(s.txs[d], tx);
    }
  }

  lemma CommitKeepsCompletions(s: State, step: Step)
    requires Inv(s) && Enabled(s, step) && step.Commit?
    ensures CompletionsLogged(Apply(s, step))
    ensures forall d :: d in s.txs && d != step.client ==> TxCompletionsLogged(Apply(s, step).log, s.txs[d])
  {
    var s' := Apply(s, step);
    var tx := s.txs[step.client];
    assert TxOk(s, tx);
    forall e | Logged(s.log, e) || Logged(tx.events, e) ensures Logged(s'.log, e) {
      if Logged(s.log, e) { LoggedGrows(s.log, s'.log, e); } else { LoggedGrows(tx.events, s'.log, e); }
    }
    forall d | d in s.txs && d != step.client ensures TxCompletionsLogged(s'.log, s.txs[d]) {
      assert TxOk(s, s.txs[d]);
    }
  }

  lemma CommitKeepsInv(s: State, step: Step)
    requires Inv(s) && Enabled(s, step) && step.Commit?
    ensures Inv(Apply(s, step))
  {
    var s' := Apply(s, step);
    CommitKeepsLedger(s, step);
    CommitKeepsCompletions(s, step);
    assert TxOk(s, s.txs[step.client]);
    forall d | d in s.txs && d != step.client ensures TxOk(s', s.txs[d]) {
      assert TxOk(s, s.txs[d]) && Apart(s.txs[d], s.txs[step.client]);
    }
  }

  lemma BeginKeepsInv(s: State, step: Step)
    requires Inv(s) && Enabled(s, step) && step.Begin?
    ensures Inv(Apply(s, step))
  {
    var s' := Apply(s, step);
    assert TxOk(s', s'.txs[step.client]);
    forall d | d in s.txs ensures TxOk(s', s.txs[d]) {
      assert TxOk(s, s.txs[d]);
    }
  }

  lemma AbortKeepsInv(s: State, step: Step)
    requires Inv(s) && Enabled(s, step) && step.Abort?
    ensures Inv(Apply(s, step))
  {
    var s' := Apply(s, step);
    forall d | d in s'.txs ensures TxOk(s', s'.txs[d]) {
      assert TxOk(s, s.txs[d]);
    }
  }

  /** Every interleaving step of every client keeps the invariant. */
  lemma StepKeepsInv(s: State, step: Step)
    requires Inv(s) && Enabled(s, step)
    ensures Inv(Apply(s, step))
  {
    match step
    case Begin(_) => BeginKeepsInv(s, step);
    case Abort(_) => AbortKeepsInv(s, step);
    case ReadPrevious(_, _) => ReadKeepsInv(s, step);
    case UpsertRun(_) => UpsertKeepsInv(s, step);
    case Emit(_) => EmitKeepsInv(s, step);
    case Commit(_) => CommitKeepsInv(s, step);
  }

  // ---- Whole interleavings ----

  ghost predicate Next(s: State, step: Step, s': State) {
    Enabled(s, step) && s' == Apply(s, step)
  }

  ghost predicate Run(states: seq<State>, steps: seq<Step>) {
    && |states| == |steps| + 1
    && states[0] == INIT
    && forall i :: 0 <= i < |steps| ==> Next(states[i], steps[i], states[i + 1])
  }

  lemma {:induction false} RunKeepsInv(states: seq<State>, steps: seq<Step>, n: nat)
    requires Run(states, steps) && n < |states|
    ensures Inv(states[n])
  {
    if n > 0 {
      var k := n - 1;
      RunKeepsInv(states, steps, k);
      assert Next(states[k], steps[k], states[k + 1]);
      StepKeepsInv(states[k], steps[k]);
    }
  }

  function EventIds(log: Log, event: Event): set<EventId> {
    set id | id in log && log[id] == event
  }

  lemma LoggedOnceIsOneId(log: Log, event: Event)
    requires LoggedOnce(log, event)
    ensures |EventIds(log, event)| == 1
  {
    var id :| id in log && log[id] == event;
    assert EventIds(log, event) == {id};
  }

  /**
   * In every interleaving of ingests, with regressions, replays and aborts: at most one inferred
   * deployment per run, and exactly one `deployment.recorded` event for each.
   */
  lemma DeploymentsAreExactlyOnce(states: seq<State>, steps: seq<Step>, n: nat)
    requires Run(states, steps) && n < |states|
    ensures var s := states[n];
            && (forall i, j :: 0 <= i < j < |s.deployments| ==> s.deployments[i].run != s.deployments[j].run)
            && (forall i :: 0 <= i < |s.deployments| ==>
                  |EventIds(s.log, DeploymentRecorded(s.deployments[i].run))| == 1)
            && (forall id :: id in s.log && s.log[id].DeploymentRecorded? ==> Deployed(s.deployments, s.log[id].run))
  {
    RunKeepsInv(states, steps, n);
    var s := states[n];
    forall i | 0 <= i < |s.deployments|
      ensures |EventIds(s.log, DeploymentRecorded(s.deployments[i].run))| == 1
    {
      assert Deployed(s.deployments, s.deployments[i].run);
      LoggedOnceIsOneId(s.log, DeploymentRecorded(s.deployments[i].run));
    }
    forall id | id in s.log && s.log[id].DeploymentRecorded? ensures Deployed(s.deployments, s.log[id].run) {
      assert Logged(s.log, DeploymentRecorded(s.log[id].run));
    }
  }

  // ---- One ingest at a time ----

  datatype Db = Db(runs: map<RunKey, RunRow>, deployments: seq<Deployment>, log: Log, nextId: EventId)

  const EMPTY := Db(map[], [], map[], 0)

  function Stored(db: Db, key: RunKey): Option<RunRow> {
    if key in db.runs then Some(db.runs[key]) else None
  }

  function StatusOf(row: Option<RunRow>): Option<string> {
    if row.Some? then Some(row.value.status) else None
  }

  /** One whole ingest transaction with nobody else about. */
  function IngestOne(db: Db, p: Payload): Db {
    var previous := Stored(db, p.key);
    var stored := db.(runs := db.runs[p.key := Upsert(previous, p)], nextId := db.nextId + 2);
    if !NewlyCompleted(p, StatusOf(previous)) then stored
    else if Deploys(p) && !Deployed(db.deployments, p.key) then
      stored.(deployments := db.deployments + [DeploymentOf(p)],
              log := db.log[db.nextId := RunCompleted(p.key)][db.nextId + 1 := DeploymentRecorded(p.key)])
    else stored.(log := db.log[db.nextId := RunCompleted(p.key)])
  }

  /** The stored status of a run is "completed". */
  predicate WasCompleted(db: Db, key: RunKey) {
    key in db.runs && db.runs[key].status == "completed"
  }

  /**
   * What deploys: a completed, successful run of the default branch, started by a push, a release or by hand,
   * that was not completed before and has no deployment yet. Its deployment carries its commit and its end.
   */
  lemma IngestDeploys(db: Db, p: Payload)
    ensures IngestOne(db, p).deployments ==
            if p.status == "completed" && !WasCompleted(db, p.key)
               && p.conclusion == Some("success") && p.headBranch == Some(p.defaultBranch)
               && (p.event == "push" || p.event == "release" || p.event == "workflow_dispatch")
               && (forall i :: 0 <= i < |db.deployments| ==> db.deployments[i].run != p.key)
            then db.deployments + [Deployment(p.key, p.headSha, p.updatedAt)]
            else db.deployments
  {}

  /** The row an ingest leaves, column by column: a missing workflow or end keeps the stored one. */
  lemma IngestStoresRow(db: Db, p: Payload)
    ensures var db' := IngestOne(db, p);
            && db'.runs.Keys == db.runs.Keys + {p.key}
            && (forall k :: k in db.runs && k != p.key ==> db'.runs[k] == db.runs[k])
            && var row := db'.runs[p.key];
               && row.status == p.status && row.conclusion == p.conclusion && row.event == p.event
               && row.headSha == p.headSha && row.headBranch == p.headBranch
               && (row.isDefaultBranch <==> p.headBranch == Some(p.defaultBranch))
               && (p.workflowId.Some? ==> row.workflowId == p.workflowId)
               && (p.workflowId.None? ==>
                     row.workflowId == if p.key in db.runs then db.runs[p.key].workflowId else None)
               && (p.status == "completed" && p.updatedAt.Some? ==> row.completedAt == p.updatedAt)
               && (p.status != "completed" || p.updatedAt.None? ==>
                     row.completedAt == if p.key in db.runs then db.runs[p.key].completedAt else None)
  {}

  function AsState(db: Db): State {
    State(db.runs, db.deployments, db.log, map[], db.nextId)
  }

  /** The state in which `c` is the only open transaction. */
  function Solo(db: Db, c: Client, tx: Tx): State {
    AsState(db).(txs := map[c := tx])
  }

  function WrittenTx(db: Db, p: Payload): Tx {
    Tx(map[p.key := Upsert(Stored(db, p.key), p)], [], map[], HasWritten(p, StatusOf(Stored(db, p.key))))
  }

  lemma LoneClientWrites(db: Db, c: Client, p: Payload)
    ensures var s0 := AsState(db);
            Enabled(s0, Begin(c)) && var s1 := Apply(s0, Begin(c));
            Enabled(s1, ReadPrevious(c, p)) && var s2 := Apply(s1, ReadPrevious(c, p));
            Enabled(s2, UpsertRun(c)) && Apply(s2, UpsertRun(c)) == Solo(db, c, WrittenTx(db, p))
  {}

  lemma EmittedTxIsSerial(db: Db, p: Payload)
    ensures var tx := EmitInto(WrittenTx(db, p), db.deployments, db.nextId); var db' := IngestOne(db, p);
            && db.runs + tx.runs == db'.runs
            && db.deployments + tx.deployments == db'.deployments
            && db.log + tx.events == db'.log
            && tx.phase.Ready?
  {
    var tx, db' := EmitInto(WrittenTx(db, p), db.deployments, db.nextId), IngestOne(db, p);
    assert !Deployed([], p.key);
    assert db.runs + tx.runs == db'.runs;
    if !NewlyCompleted(p, StatusOf(Stored(db, p.key))) {
      assert db.log + tx.events == db'.log;
    } else if Deploys(p) && !Deployed(db.deployments, p.key) {
      assert tx.events == map[db.nextId := RunCompleted(p.key), db.nextId + 1 := DeploymentRecorded(p.key)];
      assert db.log + tx.events == db'.log;
    } else {
      assert tx.events == map[db.nextId := RunCompleted(p.key)];
      assert db.log + tx.events == db'.log;
    }
  }

  lemma LoneClientCommits(db: Db, c: Client, p: Payload)
    ensures var s3 := Solo(db, c, WrittenTx(db, p));
            Enabled(s3, Emit(c)) && var s4 := Apply(s3, Emit(c));
            Enabled(s4, Commit(c)) && Apply(s4, Commit(c)) == AsState(IngestOne(db, p))
  {
    EmittedTxIsSerial(db, p);
    var tx := EmitInto(WrittenTx(db, p), db.deployments, db.nextId);
    var s4 := Apply(Solo(db, c, WrittenTx(db, p)), Emit(c));
    assert s4.txs[c] == tx;
    assert s4.txs - {c} == map[];
  }

  /** The five protocol steps of a lone client add up to exactly one `IngestOne`. */
  lemma LoneClientIsSerial(db: Db, c: Client, p: Payload)
    ensures var s0 := AsState(db);
            Enabled(s0, Begin(c)) && var s1 := Apply(s0, Begin(c));
            Enabled(s1, ReadPrevious(c, p)) && var s2 := Apply(s1, ReadPrevious(c, p));
            Enabled(s2, UpsertRun(c)) && var s3 := Apply(s2, UpsertRun(c));
            Enabled(s3, Emit(c)) && var s4 := Apply(s3, Emit(c));
            Enabled(s4, Commit(c)) && Apply(s4, Commit(c)) == AsState(IngestOne(db, p))
  {
    LoneClientWrites(db, c, p);
    LoneClientCommits(db, c, p);
  }

  function IngestAll(payloads: seq<Payload>): Db {
    if payloads == [] then EMPTY else IngestOne(IngestAll(Init(payloads)), Last(payloads))
  }

  function Init<T>(s: seq<T>): seq<T>
    requires s != []
  {
    s[..|s| - 1]
  }

  function Last<T>(s: seq<T>): T
    requires s != []
  {
    s[|s| - 1]
  }

  /** The status the last payload for a run carried, read off the payloads alone. */
  function LastStatus(payloads: seq<Payload>, key: RunKey): Option<string> {
    if payloads == [] then None
    else if Last(payloads).key == key then Some(Last(payloads).status)
    else LastStatus(Init(payloads), key)
  }

  /** How often the payloads take a run from not completed to completed. */
  function Edges(payloads: seq<Payload>, key: RunKey): nat {
    if payloads == [] then 0
    else
      Edges(Init(payloads), key)
      + if Last(payloads).key == key && NewlyCompleted(Last(payloads), LastStatus(Init(payloads), key)) then 1 else 0
  }

  lemma {:induction false} StoredStatus(payloads: seq<Payload>, key: RunKey)
    ensures StatusOf(Stored(IngestAll(payloads), key)) == LastStatus(payloads, key)
  {
    if payloads != [] { StoredStatus(Init(payloads), key); }
  }

  lemma {:induction false} IdsBelowNext(payloads: seq<Payload>)
    ensures forall id :: id in IngestAll(payloads).log ==> id < IngestAll(payloads).nextId
  {
    if payloads != [] { IdsBelowNext(Init(payloads)); }
  }

  /**
   * Served one at a time, a run's payloads emit one `workflow_run.completed` per edge into the
   * completed state: replays emit nothing, a regression followed by a completion emits again.
   */
  lemma {:induction false} CompletionsCountEdges(payloads: seq<Payload>, key: RunKey)
    ensures |EventIds(IngestAll(payloads).log, RunCompleted(key))| == Edges(payloads, key)
  {
    if payloads == [] {
      assert EventIds(map[], RunCompleted(key)) == {};
    } else {
      CompletionsCountEdges(Init(payloads), key);
      StoredStatus(Init(payloads), Last(payloads).key);
      IdsBelowNext(Init(payloads));
      IngestOneEmits(IngestAll(Init(payloads)), Last(payloads), key);
    }
  }

  /** One ingest adds one completion event of the run if it sees an edge, and none otherwise. */
  lemma IngestOneEmits(db: Db, p: Payload, key: RunKey)
    requires forall id :: id in db.log ==> id < db.nextId
    ensures |EventIds(IngestOne(db, p).log, RunCompleted(key))| == |EventIds(db.log, RunCompleted(key))|
            + if p.key == key && NewlyCompleted(p, StatusOf(Stored(db, key))) then 1 else 0
  {
    var earlier := EventIds(db.log, RunCompleted(key));
    if p.key == key && NewlyCompleted(p, StatusOf(Stored(db, key))) {
      assert EventIds(IngestOne(db, p).log, RunCompleted(key)) == earlier + {db.nextId};
      assert db.nextId !in earlier;
    } else {
      assert EventIds(IngestOne(db, p).log, RunCompleted(key)) == earlier;
    }
  }

  /** Ingesting the same payload twice in a row changes nothing the second time. */
  lemma ReplayIsSilent(db: Db, p: Payload)
    ensures var once := IngestOne(db, p); IngestOne(once, p) == once.(nextId := once.nextId + 2)
  {}

  function SamplePayload(status: string): Payload {
    Payload(RunKey(1, 1), status, None, "push", "abc", None, "main", None, None)
  }

  /** `workflow_run.completed` is not at most once: a late in-progress payload re-arms it. */
  lemma RegressionEmitsAgain()
    ensures var ps := [SamplePayload("completed"), SamplePayload("in_progress"), SamplePayload("completed")];
            |EventIds(IngestAll(ps).log, RunCompleted(RunKey(1, 1)))| == 2
  {
    var a, b, c := SamplePayload("completed"), SamplePayload("in_progress"), SamplePayload("completed");
    var k := RunKey(1, 1);
    assert Init([a, b, c]) == [a, b] && Init([a, b]) == [a] && Init([a]) == [];
    assert "in_progress" != "completed" by { assert |"in_progress"| != |"completed"|; }
    assert Edges([a], k) == 1;
    assert Edges([a, b], k) == 1;
    assert Edges([a, b, c], k) == 2;
    CompletionsCountEdges([a, b, c], k);
  }

  /** The gateway's ingest, statement by statement. */
  class Gateway {
    var runs: map<RunKey, RunRow>
    var deployments: seq<Deployment>
    var log: Log
    var nextId: EventId

    ghost function Contents(): Db
      reads this
    {
      Db(runs, deployments, log, nextId)
    }

    constructor ()
      ensures Contents() == EMPTY
    {
      runs, deployments, log, nextId := map[], [], map[], 0;
    }

    method IngestWorkflowRun(p: Payload)
      modifies this
      ensures Contents() == IngestOne(old(Contents()), p)
      ensures deployments ==
              if p.status == "completed" && !WasCompleted(old(Contents()), p.key)
                 && p.conclusion == Some("success") && p.headBranch == Some(p.defaultBranch)
                 && (p.event == "push" || p.event == "release" || p.event == "workflow_dispatch")
                 && (forall i :: 0 <= i < |old(deployments)| ==> old(deployments)[i].run != p.key)
              then old(deployments) + [Deployment(p.key, p.headSha, p.updatedAt)]
              else old(deployments)
    {
      IngestDeploys(Contents(), p);
      var previous := if p.key in runs then Some(runs[p.key].status) else None;
      runs := runs[p.key := Upsert(if p.key in runs then Some(runs[p.key]) else None, p)];
      if NewlyCompleted(p, previous) {
        log := log[nextId := RunCompleted(p.key)];
        if Deploys(p) {
          InferDeployment(p);
        }
      }
      nextId := nextId + 2;
    }

    /** ON CONFLICT DO NOTHING RETURNING id: an event is written only when a row is created. */
    method InferDeployment(p: Payload)
      modifies this`deployments, this`log
      ensures Deployed(old(deployments), p.key) ==> deployments == old(deployments) && log == old(log)
      ensures !Deployed(old(deployments), p.key) ==>
                deployments == old(deployments) + [DeploymentOf(p)] &&
                log == old(log)[nextId + 1 := DeploymentRecorded(p.key)]
    {
      if !Deployed(deployments, p.key) {
        deployments := deployments + [DeploymentOf(p)];
        log := log[nextId + 1 := DeploymentRecorded(p.key)];
      }
    }
  }
}
