/**
 * Ingest and relay together: committing an ingest is what makes its events visible to the relay,
 * and nothing else writes the outbox.
 */
module Pipeline {
  import opened Outbox
  import Ingest
  import Relay

  datatype State = State(ingest: Ingest.State, relay: Relay.State)

  datatype Step =
    | IngestStep(ingest: Ingest.Step, at: int)
    | RelayStep(relay: Relay.Step)

  ghost predicate Enabled(s: State, step: Step) {
    match step
    case IngestStep(i, _) => Ingest.Enabled(s.ingest, i)
    case RelayStep(r) => !r.Enqueue? && Relay.Shaped(s.relay) && Relay.Enabled(s.relay, r)
  }

  ghost function Apply(s: State, step: Step): State
    requires Enabled(s, step)
  {
    match step
    case IngestStep(i, at) =>
      var ingest := Ingest.Apply(s.ingest, i);
      if i.Commit? then
        var events := s.ingest.txs[i.client].events;
        State(ingest, s.relay.(outbox := s.relay.outbox + Relay.NewRows(events, at)))
      else State(ingest, s.relay)
    case RelayStep(r) => s.(relay := Relay.Apply(s.relay, r))
  }

  /** The outbox holds exactly the committed events. */
  ghost predicate Tied(log: Ingest.Log, outbox: Table) {
    && log.Keys == outbox.Keys
    && forall id :: id in log ==> outbox[id].event == log[id]
  }

  ghost predicate Inv(s: State) {
    Ingest.Inv(s.ingest) && Relay.Inv(s.relay) && Tied(s.ingest.log, s.relay.outbox)
  }

  /** An ingest step is, for the relay, either nothing or one enqueue of fresh ids. */
  lemma IngestStepKeepsInv(s: State, step: Step)
    requires Inv(s) && Enabled(s, step) && step.IngestStep?
    ensures Inv(Apply(s, step))
    ensures Relay.Evolves(s.relay.outbox, Apply(s, step).relay.outbox)
  {
    Ingest.StepKeepsInv(s.ingest, step.ingest);
    if step.ingest.Commit? {
      var enqueue := Relay.Enqueue(s.ingest.txs[step.ingest.client].events, step.at);
      Relay.StepKeepsInv(s.relay, enqueue);
      Relay.StepEvolves(s.relay, enqueue);
    }
  }

  lemma RelayStepKeepsInv(s: State, step: Step)
    requires Inv(s) && Enabled(s, step) && step.RelayStep?
    ensures Inv(Apply(s, step))
    ensures Relay.Evolves(s.relay.outbox, Apply(s, step).relay.outbox)
  {
    Relay.StepKeepsInv(s.relay, step.relay);
    Relay.StepEvolves(s.relay, step.relay);
    if step.relay.Commit? { Relay.CommitKeepsInv(s.relay, step.relay); }
  }

  ghost predicate Next(s: State, step: Step, s': State) {
    Enabled(s, step) && s' == Apply(s, step)
  }

  ghost predicate Run(states: seq<State>, steps: seq<Step>) {
    && |states| == |steps| + 1
    && states[0] == State(Ingest.INIT, Relay.INIT)
    && forall i :: 0 <= i < |steps| ==> Next(states[i], steps[i], states[i + 1])
  }

  lemma StepKeepsInv(s: State, step: Step, s': State)
    requires Inv(s) && Next(s, step, s')
    ensures Inv(s') && Relay.Evolves(s.relay.outbox, s'.relay.outbox)
  {
    match step
    case IngestStep(_, _) => IngestStepKeepsInv(s, step);
    case RelayStep(_) => RelayStepKeepsInv(s, step);
  }

  lemma {:induction false} RunKeepsInv(states: seq<State>, steps: seq<Step>, n: nat)
    requires Run(states, steps) && n < |states|
    ensures Inv(states[n])
  {
    if n > 0 {
      var k := n - 1;
      RunKeepsInv(states, steps, k);
      StepKeepsInv(states[k], steps[k], states[k + 1]);
    }
  }

  /** Once committed, an event stays in the outbox for ever, and its fate is decided once. */
  lemma {:induction false} EventsPersist(states: seq<State>, steps: seq<Step>, m: nat, n: nat)
    requires Run(states, steps) && m <= n < |states|
    ensures Relay.Evolves(states[m].relay.outbox, states[n].relay.outbox)
    decreases n
  {
    if m < n {
      var k := n - 1;
      EventsPersist(states, steps, m, k);
      RunKeepsInv(states, steps, k);
      StepKeepsInv(states[k], steps[k], states[k + 1]);
    }
  }

  /** A row whose event is still owed, delivered, or visibly parked. */
  ghost predicate Traceable(s: Relay.State, id: EventId) {
    && id in s.outbox
    && match s.outbox[id].status
       case Pending => s.outbox[id].attempts <= 7
       case Published => s.acks[id] >= 1
       case Failed => s.nacks[id] == 8
  }

  /**
   * No silent loss. In every interleaving of ingests, replicas, acks, nacks, connection losses and
   * rollbacks, each run stored as completed has a `workflow_run.completed` row, and that row is
   * pending with attempts left, published after an ack, or failed after exactly eight nacks.
   */
  lemma NoSilentLoss(states: seq<State>, steps: seq<Step>, n: nat, key: RunKey)
    requires Run(states, steps) && n < |states|
    requires key in states[n].ingest.runs && Ingest.Completed(states[n].ingest.runs[key].status)
    ensures exists id ::
              Traceable(states[n].relay, id) && states[n].relay.outbox[id].event == RunCompleted(key)
  {
    RunKeepsInv(states, steps, n);
    var s := states[n];
    assert Ingest.Logged(s.ingest.log, RunCompleted(key));
    var id :| id in s.ingest.log && s.ingest.log[id] == RunCompleted(key);
    assert Relay.Accounted(s.relay, id);
    assert Traceable(s.relay, id);
  }

  /** Conversely, every outbox row belongs to a committed ingest event: nothing is invented. */
  lemma NothingInvented(states: seq<State>, steps: seq<Step>, n: nat, id: EventId)
    requires Run(states, steps) && n < |states| && id in states[n].relay.outbox
    ensures id in states[n].ingest.log && states[n].ingest.log[id] == states[n].relay.outbox[id].event
    ensures states[n].relay.outbox[id].event.DeploymentRecorded? ==>
              Ingest.Deployed(states[n].ingest.deployments, states[n].relay.outbox[id].event.run)
  {
    RunKeepsInv(states, steps, n);
    var s := states[n];
    if s.relay.outbox[id].event.DeploymentRecorded? {
      assert Ingest.Logged(s.ingest.log, DeploymentRecorded(s.relay.outbox[id].event.run));
    }
  }
}
