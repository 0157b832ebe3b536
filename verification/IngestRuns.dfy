/** How often `workflow_run.completed` is emitted, in every interleaving of ingests. */
module IngestRuns {
  import opened Wrappers
  import opened Outbox
  import opened Ingest

  /** An ingest of k whose payload is completed, at the moment it reads a status that is not. */
  ghost predicate SeesAnEdge(s: State, step: Step, k: RunKey)
    requires Enabled(s, step)
  {
    && step.ReadPrevious? && step.payload.key == k
    && NewlyCompleted(step.payload, StatusOf(Visible(s, s.txs[step.client], k)))
  }

  /** How many such reads the open transaction of client c has made. */
  ghost function OpenReads(states: seq<State>, steps: seq<Step>, n: nat, c: Client, k: RunKey): nat
    requires Run(states, steps) && n < |states|
  {
    if n == 0 then 0
    else
      var i := n - 1;
      assert Next(states[i], steps[i], states[i + 1]);
      var before := OpenReads(states, steps, i, c, k);
      if steps[i].client != c then before
      else if steps[i].Begin? || steps[i].Commit? || steps[i].Abort? then 0
      else if SeesAnEdge(states[i], steps[i], k) then before + 1
      else before
  }

  /** How many such reads were made by transactions that have committed. */
  ghost function CommittedReads(states: seq<State>, steps: seq<Step>, n: nat, k: RunKey): nat
    requires Run(states, steps) && n < |states|
  {
    if n == 0 then 0
    else
      var i := n - 1;
      CommittedReads(states, steps, i, k)
      + if steps[i].Commit? then OpenReads(states, steps, i, steps[i].client, k) else 0
  }

  /** 1 while the transaction has read an edge of k and not yet emitted the event. */
  ghost function Due(tx: Tx, k: RunKey): nat {
    if !tx.phase.Ready? && tx.phase.payload.key == k && NewlyCompleted(tx.phase.payload, tx.phase.previous)
    then 1 else 0
  }

  /** The events of k a transaction has buffered or is about to. */
  ghost function Owed(tx: Tx, k: RunKey): nat {
    |EventIds(tx.events, RunCompleted(k))| + Due(tx, k)
  }

  /** Emitting turns a due event into a buffered one. */
  lemma EmitOwes(tx: Tx, committed: seq<Deployment>, nextId: EventId, k: RunKey)
    requires tx.phase.HasWritten? && forall id :: id in tx.events ==> id < nextId
    ensures Owed(EmitInto(tx, committed, nextId), k) == Owed(tx, k)
  {
    var tx' := EmitInto(tx, committed, nextId);
    var before := EventIds(tx.events, RunCompleted(k));
    if Due(tx, k) == 1 {
      assert EventIds(tx'.events, RunCompleted(k)) == before + {nextId};
    } else {
      assert EventIds(tx'.events, RunCompleted(k)) == before;
    }
  }

  /** What one step does to what a client's open transaction owes. */
  lemma StepOwes(s: State, step: Step, c: Client, k: RunKey)
    requires Inv(s) && Enabled(s, step) && c in Apply(s, step).txs
    ensures step.client != c ==> c in s.txs && Owed(Apply(s, step).txs[c], k) == Owed(s.txs[c], k)
    ensures step.client == c && step.Begin? ==> Owed(Apply(s, step).txs[c], k) == 0
    ensures step.client == c && !step.Begin? ==>
              && c in s.txs && !step.Commit? && !step.Abort?
              && Owed(Apply(s, step).txs[c], k) == Owed(s.txs[c], k) + if SeesAnEdge(s, step, k) then 1 else 0
  {
    if step.client == c && step.Begin? {
      assert EventIds(map[], RunCompleted(k)) == {};
    } else if step.Emit? && step.client == c {
      assert TxOk(s, s.txs[c]);
      EmitOwes(s.txs[c], s.deployments, s.nextId, k);
    }
  }

  /** A commit moves the buffered events, under ids of their own, to the log. */
  lemma CommitLogs(s: State, c: Client, k: RunKey)
    requires Inv(s) && Enabled(s, Commit(c))
    ensures |EventIds(Apply(s, Commit(c)).log, RunCompleted(k))|
            == |EventIds(s.log, RunCompleted(k))| + Owed(s.txs[c], k)
  {
    assert TxOk(s, s.txs[c]);
    var mine, theirs := EventIds(s.txs[c].events, RunCompleted(k)), EventIds(s.log, RunCompleted(k));
    assert EventIds(Apply(s, Commit(c)).log, RunCompleted(k)) == theirs + mine && theirs !! mine;
  }

  lemma {:induction false} OpenReadsAreOwed(states: seq<State>, steps: seq<Step>, n: nat, c: Client, k: RunKey)
    requires Run(states, steps) && n < |states| && c in states[n].txs
    ensures OpenReads(states, steps, n, c, k) == Owed(states[n].txs[c], k)
  {
    var i := n - 1;
    assert Next(states[i], steps[i], states[i + 1]);
    RunKeepsInv(states, steps, i);
    StepOwes(states[i], steps[i], c, k);
    if c in states[i].txs { OpenReadsAreOwed(states, steps, i, c, k); }
  }

  /**
   * In every read-committed interleaving the committed `workflow_run.completed` events of a run are as
   * many as the committed ingests that brought a completed payload and read a status that was not.
   */
  lemma {:induction false} CompletionsCountReads(states: seq<State>, steps: seq<Step>, n: nat, k: RunKey)
    requires Run(states, steps) && n < |states|
    ensures |EventIds(states[n].log, RunCompleted(k))| == CommittedReads(states, steps, n, k)
  {
    if n == 0 {
      assert EventIds(map[], RunCompleted(k)) == {};
    } else {
      var i := n - 1;
      CompletionsCountReads(states, steps, i, k);
      assert Next(states[i], steps[i], states[i + 1]);
      if steps[i].Commit? {
        RunKeepsInv(states, steps, i);
        OpenReadsAreOwed(states, steps, i, steps[i].client, k);
        CommitLogs(states[i], steps[i].client, k);
      }
    }
  }

  // ---- Which runs deploy ----

  /** What an emit announces: the payload, if it is completed and the status that was read is not. */
  ghost function Announced(tx: Tx): seq<Payload>
    requires tx.phase.HasWritten?
  {
    var p := tx.phase.payload;
    if p.status == "completed" && tx.phase.previous != Some("completed") then [p] else []
  }

  /** The payloads the open transaction of client c has announced. */
  ghost function OpenPayloads(states: seq<State>, steps: seq<Step>, n: nat, c: Client): seq<Payload>
    requires Run(states, steps) && n < |states|
  {
    if n == 0 then []
    else
      var i := n - 1;
      assert Next(states[i], steps[i], states[i + 1]);
      var before := OpenPayloads(states, steps, i, c);
      if steps[i].client != c then before
      else if steps[i].Begin? || steps[i].Commit? || steps[i].Abort? then []
      else if steps[i].Emit? then before + Announced(states[i].txs[c])
      else before
  }

  /** The payloads announced by transactions that have committed, in the order of the commits. */
  ghost function CommittedPayloads(states: seq<State>, steps: seq<Step>, n: nat): seq<Payload>
    requires Run(states, steps) && n < |states|
  {
    if n == 0 then []
    else
      var i := n - 1;
      CommittedPayloads(states, steps, i)
      + if steps[i].Commit? then OpenPayloads(states, steps, i, steps[i].client) else []
  }

  /** The deployments that newly completed payloads add to `base`, taken one after the other. */
  function Added(base: seq<Deployment>, payloads: seq<Payload>): seq<Deployment> {
    if payloads == [] then []
    else
      var d, p := Added(base, Ingest.Init(payloads)), Last(payloads);
      if Deploys(p) && !Deployed(base, p.key) && !Deployed(d, p.key) then d + [DeploymentOf(p)] else d
  }

  lemma DeployedIn(a: seq<Deployment>, b: seq<Deployment>, k: RunKey)
    ensures Deployed(a + b, k) <==> Deployed(a, k) || Deployed(b, k)
  {
    if i :| 0 <= i < |a| && a[i].run == k { assert (a + b)[i].run == k; }
    if i :| 0 <= i < |b| && b[i].run == k { assert (a + b)[|a| + i].run == k; }
  }

  lemma {:induction false} AddedSame(base: seq<Deployment>, base': seq<Deployment>, payloads: seq<Payload>)
    requires forall i :: 0 <= i < |payloads| ==>
               (Deployed(base, payloads[i].key) <==> Deployed(base', payloads[i].key))
    ensures Added(base, payloads) == Added(base', payloads)
    decreases |payloads|
  {
    if payloads != [] { AddedSame(base, base', Ingest.Init(payloads)); }
  }

  lemma {:induction false} AddedInTwo(base: seq<Deployment>, a: seq<Payload>, b: seq<Payload>)
    ensures Added(base, a + b) == Added(base, a) + Added(base + Added(base, a), b)
    decreases |b|
  {
    if b == [] {
      assert a + b == a;
    } else {
      assert Ingest.Init(a + b) == a + Ingest.Init(b) && Last(a + b) == Last(b);
      AddedInTwo(base, a, Ingest.Init(b));
      var k, mid := Last(b).key, Added(base, a);
      DeployedIn(base, mid, k);
      DeployedIn(mid, Added(base + mid, Ingest.Init(b)), k);
    }
  }

  /** An open transaction has added exactly what its payloads add, and holds the rows of their runs. */
  ghost predicate Adds(s: State, tx: Tx, payloads: seq<Payload>) {
    && tx.deployments == Added(s.deployments, payloads)
    && forall i :: 0 <= i < |payloads| ==> payloads[i].key in tx.runs
  }

  lemma EmitAdds(s: State, tx: Tx, payloads: seq<Payload>)
    requires Adds(s, tx, payloads) && tx.phase.HasWritten? && tx.phase.payload.key in tx.runs
    ensures Adds(s, EmitInto(tx, s.deployments, s.nextId), payloads + Announced(tx))
  {
    if Announced(tx) == [] {
      assert payloads + Announced(tx) == payloads;
    } else {
      var p := tx.phase.payload;
      assert Ingest.Init(payloads + [p]) == payloads && Last(payloads + [p]) == p;
    }
  }

  /** Another commit does not touch the runs this transaction has locked. */
  lemma CommitLeavesAdds(s: State, c: Client, d: Client, payloads: seq<Payload>)
    requires Inv(s) && Enabled(s, Commit(c)) && d in s.txs && d != c && Adds(s, s.txs[d], payloads)
    ensures Adds(Apply(s, Commit(c)), s.txs[d], payloads)
  {
    assert TxOk(s, s.txs[c]) && Apart(s.txs[c], s.txs[d]);
    forall i | 0 <= i < |payloads|
      ensures Deployed(s.deployments, payloads[i].key)
              <==> Deployed(s.deployments + s.txs[c].deployments, payloads[i].key)
    {
      DeployedIn(s.deployments, s.txs[c].deployments, payloads[i].key);
    }
    AddedSame(s.deployments, s.deployments + s.txs[c].deployments, payloads);
  }

  /** Every other step leaves what a transaction has added; its upserts only lock more runs. */
  lemma LocalLeavesAdds(s: State, step: Step, c: Client, payloads: seq<Payload>)
    requires Enabled(s, step) && !step.Commit? && c in s.txs && Adds(s, s.txs[c], payloads)
    requires step.client == c ==> step.ReadPrevious? || step.UpsertRun?
    ensures c in Apply(s, step).txs && Adds(Apply(s, step), Apply(s, step).txs[c], payloads)
  {
    assert Apply(s, step).deployments == s.deployments;
    assert Apply(s, step).txs[c].deployments == s.txs[c].deployments;
  }

  lemma StepAdds(s: State, step: Step, c: Client, payloads: seq<Payload>)
    requires Inv(s) && Enabled(s, step) && c in s.txs && Adds(s, s.txs[c], payloads)
    requires step.client == c ==> !step.Commit? && !step.Abort?
    ensures c in Apply(s, step).txs
    ensures Adds(Apply(s, step), Apply(s, step).txs[c],
                 if step.client == c && step.Emit? then payloads + Announced(s.txs[c]) else payloads)
  {
    if step.Commit? {
      CommitLeavesAdds(s, step.client, c, payloads);
    } else if step.Emit? && step.client == c {
      assert TxOk(s, s.txs[c]);
      EmitAdds(s, s.txs[c], payloads);
    } else {
      LocalLeavesAdds(s, step, c, payloads);
    }
  }

  lemma {:induction false} OpenPayloadsAdd(states: seq<State>, steps: seq<Step>, n: nat, c: Client)
    requires Run(states, steps) && n < |states| && c in states[n].txs
    ensures Adds(states[n], states[n].txs[c], OpenPayloads(states, steps, n, c))
  {
    var i := n - 1;
    assert Next(states[i], steps[i], states[i + 1]);
    if c in states[i].txs {
      RunKeepsInv(states, steps, i);
      OpenPayloadsAdd(states, steps, i, c);
      StepAdds(states[i], steps[i], c, OpenPayloads(states, steps, i, c));
    }
  }

  /**
   * In every interleaving the committed deployments are those the committed, newly completed payloads
   * add when they are taken one after the other in the order of their commits.
   */
  lemma {:induction false} DeploymentsAreSerial(states: seq<State>, steps: seq<Step>, n: nat)
    requires Run(states, steps) && n < |states|
    ensures states[n].deployments == Added([], CommittedPayloads(states, steps, n))
  {
    if n > 0 {
      var i := n - 1;
      DeploymentsAreSerial(states, steps, i);
      assert Next(states[i], steps[i], states[i + 1]);
      if steps[i].Commit? {
        var c := steps[i].client;
        OpenPayloadsAdd(states, steps, i, c);
        AddedInTwo([], CommittedPayloads(states, steps, i), OpenPayloads(states, steps, i, c));
        assert [] + states[i].deployments == states[i].deployments;
      } else {
        assert CommittedPayloads(states, steps, n) == CommittedPayloads(states, steps, i);
      }
    }
  }

  /** A completed, successful run of the default branch, started by a push, a release or by hand. */
  predicate GoesToProduction(p: Payload) {
    && p.status == "completed" && p.conclusion == Some("success") && p.headBranch == Some(p.defaultBranch)
    && (p.event == "push" || p.event == "release" || p.event == "workflow_dispatch")
  }

  ghost predicate ComesFrom(d: Deployment, payloads: seq<Payload>) {
    exists j :: 0 <= j < |payloads| && GoesToProduction(payloads[j])
                && d == Deployment(payloads[j].key, payloads[j].headSha, payloads[j].updatedAt)
  }

  lemma {:induction false} AddedComeFrom(payloads: seq<Payload>)
    requires forall j :: 0 <= j < |payloads| ==> payloads[j].status == "completed"
    ensures forall i :: 0 <= i < |Added([], payloads)| ==> ComesFrom(Added([], payloads)[i], payloads)
    ensures forall j :: 0 <= j < |payloads| && GoesToProduction(payloads[j]) ==>
              Deployed(Added([], payloads), payloads[j].key)
    decreases |payloads|
  {
    if payloads != [] {
      var init, n := Ingest.Init(payloads), |payloads| - 1;
      AddedComeFrom(init);
      var before, after := Added([], init), Added([], payloads);
      assert !Deployed([], payloads[n].key);
      forall i | 0 <= i < |after| ensures ComesFrom(after[i], payloads) {
        if i < |before| {
          assert ComesFrom(before[i], init);
          var j :| 0 <= j < |init| && GoesToProduction(init[j])
                   && before[i] == Deployment(init[j].key, init[j].headSha, init[j].updatedAt);
          assert payloads[j] == init[j];
        } else {
          assert GoesToProduction(payloads[n]);
        }
      }
      forall j | 0 <= j < |payloads| && GoesToProduction(payloads[j]) ensures Deployed(after, payloads[j].key) {
        if j < n { assert payloads[j] == init[j]; }
        DeployedIn(before, after[|before|..], payloads[j].key);
        assert after == before + after[|before|..];
        if after != before { assert after[|before|].run == payloads[n].key; }
      }
    }
  }

  lemma {:induction false} OpenPayloadsAreCompleted(states: seq<State>, steps: seq<Step>, n: nat, c: Client)
    requires Run(states, steps) && n < |states|
    ensures forall p :: p in OpenPayloads(states, steps, n, c) ==> p.status == "completed"
  {
    if n > 0 {
      assert Next(states[n - 1], steps[n - 1], states[n]);
      OpenPayloadsAreCompleted(states, steps, n - 1, c);
    }
  }

  lemma {:induction false} CommittedPayloadsAreCompleted(states: seq<State>, steps: seq<Step>, n: nat)
    requires Run(states, steps) && n < |states|
    ensures forall p :: p in CommittedPayloads(states, steps, n) ==> p.status == "completed"
  {
    if n > 0 {
      assert Next(states[n - 1], steps[n - 1], states[n]);
      CommittedPayloadsAreCompleted(states, steps, n - 1);
      if steps[n - 1].Commit? { OpenPayloadsAreCompleted(states, steps, n - 1, steps[n - 1].client); }
    }
  }

  /**
   * In every interleaving every committed deployment is that of a committed payload that goes to production,
   * with its commit and its time, and the run of every such payload is deployed.
   */
  lemma DeploymentsComeFromPayloads(states: seq<State>, steps: seq<Step>, n: nat)
    requires Run(states, steps) && n < |states|
    ensures var ds, ps := states[n].deployments, CommittedPayloads(states, steps, n);
            && (forall i :: 0 <= i < |ds| ==> ComesFrom(ds[i], ps))
            && (forall j :: 0 <= j < |ps| && GoesToProduction(ps[j]) ==> Deployed(ds, ps[j].key))
  {
    DeploymentsAreSerial(states, steps, n);
    CommittedPayloadsAreCompleted(states, steps, n);
    AddedComeFrom(CommittedPayloads(states, steps, n));
  }

  // ---- The only two causes of a second event ----

  /** An upsert takes the run back from completed, as its own transaction sees it. */
  ghost predicate Regresses(s: State, step: Step, k: RunKey)
    requires Enabled(s, step)
  {
    && step.UpsertRun? && s.txs[step.client].phase.payload.key == k
    && IsCompleted(Visible(s, s.txs[step.client], k)) && !Completed(s.txs[step.client].phase.payload.status)
  }

  /** A read sees an edge that another open transaction has already seen. */
  ghost predicate Races(s: State, step: Step, k: RunKey)
    requires Enabled(s, step)
  {
    SeesAnEdge(s, step, k) && exists d :: d in s.txs && d != step.client && Owed(s.txs[d], k) > 0
  }

  predicate IsCompleted(row: Option<RunRow>) {
    row.Some? && Completed(row.value.status)
  }

  function Count(s: State, k: RunKey): nat {
    |EventIds(s.log, RunCompleted(k))|
  }

  ghost predicate TxSteady(s: State, tx: Tx, k: RunKey) {
    && (EventIds(tx.events, RunCompleted(k)) != {} ==> k in tx.runs && Completed(tx.runs[k].status))
    && (k in tx.runs && k in s.runs && Completed(s.runs[k].status) ==> Completed(tx.runs[k].status))
    && (tx.phase.HasWritten? && tx.phase.payload.key == k ==>
          k in tx.runs && tx.runs[k].status == tx.phase.payload.status)
  }

  /** Once its event is there, the run is completed and stays so. */
  ghost predicate Steady(s: State, k: RunKey) {
    && (Count(s, k) > 0 ==> k in s.runs && Completed(s.runs[k].status))
    && forall c :: c in s.txs ==> TxSteady(s, s.txs[c], k)
  }

  lemma EmitKeepsTxSteady(s: State, tx: Tx, committed: seq<Deployment>, nextId: EventId, k: RunKey)
    requires TxSteady(s, tx, k) && tx.phase.HasWritten?
    ensures TxSteady(s, EmitInto(tx, committed, nextId), k)
  {
    var tx' := EmitInto(tx, committed, nextId);
    if tx.phase.payload.key != k || !NewlyCompleted(tx.phase.payload, tx.phase.previous) {
      assert EventIds(tx'.events, RunCompleted(k)) <= EventIds(tx.events, RunCompleted(k));
    }
  }

  lemma LocalKeepsSteady(s: State, step: Step, k: RunKey)
    requires Inv(s) && Steady(s, k) && Enabled(s, step) && !Regresses(s, step, k) && !step.Commit?
    ensures Steady(Apply(s, step), k)
  {
    var s' := Apply(s, step);
    forall c | c in s'.txs ensures TxSteady(s', s'.txs[c], k) {
      assert c in s.txs ==> TxSteady(s, s.txs[c], k);
      if step.Emit? && step.client == c { EmitKeepsTxSteady(s, s.txs[c], s.deployments, s.nextId, k); }
      if step.Begin? && step.client == c { assert EventIds(map[], RunCompleted(k)) == {}; }
    }
  }

  lemma CommitKeepsSteady(s: State, c: Client, k: RunKey)
    requires Inv(s) && Steady(s, k) && Enabled(s, Commit(c))
    ensures Steady(Apply(s, Commit(c)), k)
  {
    var s' := Apply(s, Commit(c));
    assert TxSteady(s, s.txs[c], k);
    CommitLogs(s, c, k);
    assert Count(s', k) > 0 ==> Count(s, k) > 0 || EventIds(s.txs[c].events, RunCompleted(k)) != {};
    forall d | d in s'.txs ensures TxSteady(s', s'.txs[d], k) {
      assert TxSteady(s, s.txs[d], k) && Apart(s.txs[c], s.txs[d]);
    }
  }

  /** There is one event at most, committed or owed by one transaction. */
  ghost predicate Single(s: State, k: RunKey) {
    && Count(s, k) <= 1
    && (forall c :: c in s.txs ==> Owed(s.txs[c], k) <= 1)
    && (forall c :: c in s.txs && Owed(s.txs[c], k) > 0 ==> Count(s, k) == 0)
    && (forall c, d :: c in s.txs && d in s.txs && Owed(s.txs[c], k) > 0 && Owed(s.txs[d], k) > 0 ==> c == d)
  }

  /** A transaction that sees an edge owes nothing yet, and nothing is committed. */
  lemma EdgeMeansNone(s: State, step: Step, k: RunKey)
    requires Inv(s) && Steady(s, k) && Enabled(s, step) && SeesAnEdge(s, step, k)
    ensures Count(s, k) == 0 && Owed(s.txs[step.client], k) == 0
  {
    assert TxSteady(s, s.txs[step.client], k);
  }

  lemma LocalKeepsSingle(s: State, step: Step, k: RunKey)
    requires Inv(s) && Steady(s, k) && Single(s, k) && Enabled(s, step) && !Races(s, step, k) && !step.Commit?
    ensures Single(Apply(s, step), k)
  {
    var s' := Apply(s, step);
    if SeesAnEdge(s, step, k) { EdgeMeansNone(s, step, k); }
    forall c | c in s'.txs
      ensures Owed(s'.txs[c], k) > 0 ==>
                c in s.txs && (Owed(s.txs[c], k) > 0 || (SeesAnEdge(s, step, k) && c == step.client))
      ensures Owed(s'.txs[c], k) <= 1
    {
      StepOwes(s, step, c, k);
    }
  }

  lemma CommitKeepsSingle(s: State, c: Client, k: RunKey)
    requires Inv(s) && Single(s, k) && Enabled(s, Commit(c))
    ensures Single(Apply(s, Commit(c)), k)
  {
    CommitLogs(s, c, k);
  }

  ghost predicate Orderly(s: State, step: Step, s': State, k: RunKey) {
    Next(s, step, s') && !Regresses(s, step, k) && !Races(s, step, k)
  }

  /**
   * At most once, exactly up to two causes: in every interleaving in which no upsert takes a completed
   * run back and no two open transactions see the same edge, a run has at most one completion event.
   */
  lemma {:induction false} AtMostOnceWithoutRegressionOrRace(states: seq<State>, steps: seq<Step>, n: nat, k: RunKey)
    requires Run(states, steps) && n < |states|
    requires forall i :: 0 <= i < n ==> Orderly(states[i], steps[i], states[i + 1], k)
    ensures |EventIds(states[n].log, RunCompleted(k))| <= 1
    ensures Steady(states[n], k) && Single(states[n], k)
  {
    if n == 0 {
      assert EventIds(map[], RunCompleted(k)) == {};
    } else {
      var i := n - 1;
      AtMostOnceWithoutRegressionOrRace(states, steps, i, k);
      RunKeepsInv(states, steps, i);
      assert Next(states[i], steps[i], states[i + 1]);
      if steps[i].Commit? {
        CommitKeepsSteady(states[i], steps[i].client, k);
        CommitKeepsSingle(states[i], steps[i].client, k);
      } else {
        LocalKeepsSteady(states[i], steps[i], k);
        LocalKeepsSingle(states[i], steps[i], k);
      }
    }
  }

  // ---- Two ingests of one payload at the same time ----

  ghost predicate OnlyPayload(steps: seq<Step>, p: Payload) {
    forall i :: 0 <= i < |steps| && steps[i].ReadPrevious? ==> steps[i].payload == p
  }

  /** Some run that ingests nothing but p ends in s. */
  ghost predicate Reached(s: State, p: Payload) {
    exists states, steps :: Run(states, steps) && OnlyPayload(steps, p) && states[|steps|] == s
  }

  lemma ReachedStart(p: Payload)
    ensures Reached(INIT, p)
  {
    var states, steps: seq<Step> := [INIT], [];
    assert Run(states, steps) && OnlyPayload(steps, p) && states[|steps|] == INIT;
  }

  lemma ReachedInv(s: State, p: Payload)
    requires Reached(s, p)
    ensures Inv(s)
  {
    var states, steps :| Run(states, steps) && OnlyPayload(steps, p) && states[|steps|] == s;
    RunKeepsInv(states, steps, |steps|);
  }

  lemma ReachedNext(s: State, step: Step, s': State, p: Payload)
    requires Reached(s, p) && Next(s, step, s') && (step.ReadPrevious? ==> step.payload == p)
    ensures Reached(s', p)
  {
    var states, steps :| Run(states, steps) && OnlyPayload(steps, p) && states[|steps|] == s;
    var states', steps' := states + [s'], steps + [step];
    assert forall i :: 0 <= i < |steps| ==> Next(states[i], steps[i], states[i + 1]);
    assert Run(states', steps') && OnlyPayload(steps', p) && states'[|steps'|] == s';
  }

  lemma ReachedStepOwes(s: State, step: Step, c: Client, k: RunKey, p: Payload)
    requires Reached(s, p) && Enabled(s, step) && c in s.txs && step.client == c && (step.UpsertRun? || step.Emit?)
    ensures c in Apply(s, step).txs && Owed(Apply(s, step).txs[c], k) == Owed(s.txs[c], k)
  {
    ReachedInv(s, p);
    StepOwes(s, step, c, k);
  }

  lemma ReachedCommitLogs(s: State, c: Client, k: RunKey, p: Payload)
    requires Reached(s, p) && Enabled(s, Commit(c))
    ensures |EventIds(Apply(s, Commit(c)).log, RunCompleted(k))|
            == |EventIds(s.log, RunCompleted(k))| + Owed(s.txs[c], k)
  {
    ReachedInv(s, p);
    CommitLogs(s, c, k);
  }

  /** From its read on, a transaction that can lock the row writes and emits. */
  lemma WriteAndEmit(s: State, c: Client, k: RunKey, p: Payload) returns (s': State)
    requires Reached(s, p) && c in s.txs && s.txs[c].phase.HasRead? && LockFree(s, c, s.txs[c].phase.payload.key)
    ensures Reached(s', p) && s'.log == s.log && s'.txs.Keys == s.txs.Keys
    ensures s'.txs == s.txs[c := s'.txs[c]] && s'.txs[c].phase.Ready? && Owed(s'.txs[c], k) == Owed(s.txs[c], k)
  {
    var s1 := Apply(s, UpsertRun(c));
    ReachedStepOwes(s, UpsertRun(c), c, k, p);
    ReachedNext(s, UpsertRun(c), s1, p);
    s' := Apply(s1, Emit(c));
    ReachedStepOwes(s1, Emit(c), c, k, p);
    ReachedNext(s1, Emit(c), s', p);
  }

  /** It then commits and delivers what it owed. */
  lemma FinishIngest(s: State, c: Client, k: RunKey, p: Payload) returns (s': State)
    requires Reached(s, p) && c in s.txs && s.txs[c].phase.HasRead? && LockFree(s, c, s.txs[c].phase.payload.key)
    ensures Reached(s', p) && s'.txs == s.txs - {c}
    ensures |EventIds(s'.log, RunCompleted(k))| == |EventIds(s.log, RunCompleted(k))| + Owed(s.txs[c], k)
  {
    var s2 := WriteAndEmit(s, c, k, p);
    s' := Apply(s2, Commit(c));
    ReachedCommitLogs(s2, c, k, p);
    ReachedNext(s2, Commit(c), s', p);
  }

  /** Two clients have read that there is no such run. */
  function BothHaveRead(p: Payload): State {
    var tx := Tx(map[], [], map[], HasRead(p, None));
    State(map[], [], map[], map[0 := tx, 1 := tx], 0)
  }

  lemma BothRead(p: Payload)
    ensures Reached(BothHaveRead(p), p)
  {
    ReachedStart(p);
    var s1 := Apply(INIT, Begin(0));
    ReachedNext(INIT, Begin(0), s1, p);
    var s2 := Apply(s1, Begin(1));
    ReachedNext(s1, Begin(1), s2, p);
    var s3 := Apply(s2, ReadPrevious(0, p));
    ReachedNext(s2, ReadPrevious(0, p), s3, p);
    assert Apply(s3, ReadPrevious(1, p)).txs == BothHaveRead(p).txs;
    ReachedNext(s3, ReadPrevious(1, p), BothHaveRead(p), p);
  }

  /**
   * A second way to emit twice, without any regression: the status is read without a lock, so two
   * concurrent ingests of one completed payload of a new run both see an edge where there is one.
   */
  lemma {:induction false} RaceEmitsTwice(p: Payload)
    requires Completed(p.status)
    ensures exists s :: Reached(s, p) && |EventIds(s.log, RunCompleted(p.key))| == 2
    ensures Edges([p, p], p.key) == 1
  {
    var s := BothHaveRead(p);
    BothRead(p);
    assert EventIds(map[], RunCompleted(p.key)) == {};
    assert Owed(s.txs[0], p.key) == 1 && Owed(s.txs[1], p.key) == 1;
    var s1 := FinishIngest(s, 0, p.key, p);
    assert s1.txs == map[1 := s.txs[1]];
    var s2 := FinishIngest(s1, 1, p.key, p);
    OneEdge(p);
  }

  lemma {:induction false} OneEdge(p: Payload)
    requires Completed(p.status)
    ensures Edges([p, p], p.key) == 1
  {
    assert Ingest.Init([p, p]) == [p] && Ingest.Init([p]) == [];
    assert Edges([p], p.key) == 1 && LastStatus([p], p.key) == Some(p.status);
  }
}
