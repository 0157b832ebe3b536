# BuildLens, verified

BuildLens turns GitHub facts into derived numbers and paid AI reports through a database-backed
pipeline: an ingest transaction writes runs, deployments and outbox rows; a relay publishes the rows
to RabbitMQ; consumers compute DORA metrics and flaky tests, and an AI worker spends money under a
monthly cap. This project models that pipeline in Dafny and proves what it promises, for every input
and every interleaving.

Each Postgres table is a map or a sequence, each SQL transaction is one atomic step that commits or
rolls back, and each service is a process taking steps. Protocols are state machines with an
invariant and theorems over whole runs. Code that updates state in place is a class whose methods are
proved against the functions those theorems are about. `dafny verify dfyconfig.toml` checks
everything.

| file | what it holds |
|---|---|
| `Outbox.dfy`, `Relay.dfy`, `RelayService.dfy` | the outbox table, the relay protocol with any number of replicas, and the relay's own loops |
| `Ingest.dfy`, `IngestRuns.dfy`, `Pipeline.dfy` | concurrent read-committed ingests, how often they emit, and ingest and relay composed |
| `AiTables.dfy`, `AiBudget.dfy`, `AiBudgetProofs.dfy`, `AiBudgetRuns.dfy`, `AiBudgetLimits.dfy` | report claims, the budget lock protocol fault by fault, its invariant, its theorems, and runs past the cap |
| `AiService.dfy`, `AiServiceRuns.dfy` | the worker's own code, and its place in the protocol |
| `Cost.dfy` | prices, rounding and the projection |
| `Webhooks.dfy` | the delivery queue |
| `Backfill.dfy` | the cursor and ETag protocol all five resources share |
| `Paths.dfy`, `Evidence.dfy`, `Grounding.dfy` | safe archive entries, window merging, bounded extraction, and validation of citations |
| `Percentile.dfy`, `Calendar.dfy`, `Rates.dfy`, `Dora.dfy`, `DoraChanges.dfy`, `Flaky.dfy`, `FlakyMeaning.dfy` | the analytics |
| `Organizations.dfy` | membership under the organization row lock |
| `Wrappers.dfy`, `Basics.dfy` | `Option`, `Result` and other small shared definitions |

Where the obvious claim is false of the code, the code is kept and the boundary is proved:

- `workflow_run.completed` is not sent at most once, for two causes: a late `in_progress` payload makes
  the next `completed` an edge again (`Ingest.RegressionEmitsAgain`), and the status is read without a
  lock, so two concurrent ingests of one payload both see the edge (`IngestRuns.RaceEmitsTwice`). There
  are no others: without a regression and without such a race it is at most once
  (`IngestRuns.AtMostOnceWithoutRegressionOrRace`). In every interleaving the events are exactly the
  committed ingests that read an edge (`IngestRuns.CompletionsCountReads`).
- The monthly cap is hard while no charge is recorded outside the lock, no report is admitted in another
  month than it was requested in, and no call is billed for more tokens than were counted and allowed
  (`AiBudgetRuns.CapIsHard`, `AiBudgetRuns.PricedCapIsHard`). Each condition is needed, for every cap that
  admits a call the settings allow: a run that breaks that one alone passes the cap
  (`AiBudgetLimits.LateChargePassesCap`, `AiBudgetLimits.StraddlePassesCap`,
  `AiBudgetLimits.OverrunPassesCap`), and a backlog of n reports takes its month to n times a call's cost
  (`AiBudgetLimits.BacklogMultipliesCost`). A cap below every projection admits nothing
  (`AiBudgetLimits.UnaffordableCallsAreNotMade`). `AiBudgetRuns.SpendIsCapped` bounds the excess in every run.
- One model call can be charged twice or not at all; `AiService.ChargedTwiceOrNever` says exactly when.
- A webhook processor that starts while another has a repository-scoped delivery with attempts left in
  hand can make both commit its facts, from every such state (`Webhooks.UnsafeStartAppliesTwice`); if
  no start does that, no delivery is applied twice (`Webhooks.AppliedAtMostOnce`).
- A citation whose start lies after its end is accepted. Both ends of a cited range are evidence lines,
  in every archive and extraction that make it available, exactly if start <= end, or no extraction can
  reach it: its source is an unsafe name, or its end lies past line 2097149, the most an entry of 2 MiB
  with an error line can have (`Grounding.EndsAreEvidenceIffOrdered`).
- Recomputing flaky tests leaves no old verdict, but for one case: a test whose first counted result is
  committed between the summary query and the reset keeps what it had (`Flaky.CurrentIffNoneStale`).
- A deployment's date is recomputed, other periods are not. Their counts, failures and lead times stay
  right; their recovery times do exactly if the deployment hastens no recovery of theirs
  (`DoraChanges.OtherSpansKeepCounts`, `DoraChanges.FirstRecoveryIsMissed`).

## Model

| member | source | states |
|---|---|---|
| `Outbox.BackoffBounds` | gateway/src/relay.rs:248-250 | the retry delay is non-decreasing in the attempt number and always between 10 and 300 seconds |
| `Outbox.NackedRowWaits` | gateway/src/relay.rs:236-263 | a nacked row, parked or backed off, is not claimable within nine seconds of its nack |
| `Outbox.BackoffDoubles` | gateway/src/relay.rs:248-251 | the delay starts at 10 seconds and doubles until it reaches 300 |
| `Outbox.DueAgain` | gateway/src/relay.rs:236-263 | a new row is due at once; a nacked row is due again exactly from the end of its delay on, up to seven times; an acked row never |
| `Outbox.ClaimIsFull` | gateway/src/relay.rs:165-175 | a claim takes pending, due, unlocked rows only, and passes over one only for fifty with smaller ids |
| `Outbox.SettleAllRows` | gateway/src/relay.rs:182-225 | settling a batch loses and adds no row, gives each confirmed id its own confirm's outcome, and leaves every other row alone |
| `Outbox.BatchLowersBacklog` | gateway/src/relay.rs:130-142 | a settled non-empty batch strictly lowers the sum of (8 - attempts) over pending rows, whatever the broker answered |
| `Relay.ClaimIsExclusive` | gateway/src/relay.rs:163-175 | with SKIP LOCKED no row is ever held by two open batches |
| `Relay.ClosedBatchAcks` | gateway/src/relay.rs:199-228 | closing a batch takes each of its acks out of flight exactly once, as no other batch can have acked the same id |
| `Relay.CommittedRow` | gateway/src/relay.rs:211-228 | a commit changes exactly the claimed rows, each by its ack or its nack, and those rows were pending |
| `Relay.StepKeepsInv` | gateway/src/relay.rs:163-266 | enqueue, claim, confirm, rollback and commit all keep exclusion, the attempt bounds and the ack accounting |
| `Relay.RunKeepsInv` | gateway/src/relay.rs:163-266 | so does every run of any number of replicas |
| `Relay.RunEvolves` | gateway/src/relay.rs:211-266 | over any stretch of any run no row disappears, no event changes, attempts never fall, and a published or failed row is final |
| `Relay.DeliveryAccounting` | gateway/src/relay.rs:163-266 | in every reachable state: published implies an ack; pending implies at most 7 attempts; failed implies exactly 8 committed nacks; a row is published at most once; acks observed for an id that is not in flight = 1 if published, plus the acks of rolled-back batches |
| `Relay.CommitLowersBacklog` | gateway/src/relay.rs:130-142 | with several replicas, each committed non-empty batch strictly lowers the backlog |
| `RelayService.SelectPending` | gateway/src/relay.rs:165-175 | the claim is the first at most 50 due, unlocked, pending rows in id order |
| `RelayService.PublishAll` | gateway/src/relay.rs:182-225 | the row loop ends well exactly if every publish was confirmed, and then its pending writes are the settled batch |
| `RelayService.CommittedBatch` | gateway/src/relay.rs:211-228 | a committed batch keeps every row and the attempt bound, and lowers the backlog if it is not empty |
| `RelayService.OutboxRelay.Enqueue` | gateway/src/events.rs:66-105 | appends one pending row under a fresh id larger than every other, and moves no other row |
| `RelayService.OutboxRelay.DrainBatch` | gateway/src/relay.rs:163-228 | all or nothing: every publish confirmed and each row settled by its own confirm, or not one row changed |
| `RelayService.OutboxRelay.Meanwhile` | gateway/src/relay.rs:163-228 | whatever ingests and other replicas commit in between, no row is lost, the attempt bound holds, and without new events the backlog does not grow |
| `RelayService.OutboxRelay.DrainTick` | gateway/src/relay.rs:130-142 | while others enqueue and other replicas commit between its batches: terminates, for every broker and clock, once nothing more is enqueued; loses no row; without an error nothing unlocked is due at the last batch |
| `Ingest.StepKeepsInv` | gateway/src/workflow_ingest.rs:94-180 | every statement of every concurrent ingest transaction keeps: completed runs have their event, deployments and their events match one to one, rows written are locked by their writer |
| `Ingest.RunKeepsInv` | gateway/src/workflow_ingest.rs:94-180 | so does every read-committed interleaving |
| `Ingest.DeploymentsAreExactlyOnce` | gateway/src/workflow_ingest.rs:332-389 | in every interleaving, with replays and regressions: at most one inferred deployment per run, exactly one `deployment.recorded` per deployment, and none without a deployment |
| `Ingest.LoneClientIsSerial` | gateway/src/workflow_ingest.rs:39-183 | the statements of one transaction running alone amount to one atomic ingest |
| `Ingest.StoredStatus` | gateway/src/workflow_ingest.rs:102-149 | after any payloads, a run's stored status is that of its last payload, even if that is a regression |
| `Ingest.CompletionsCountEdges` | gateway/src/workflow_ingest.rs:94-180 | in serial runs the number of `workflow_run.completed` events of a run equals the number of its not-completed to completed edges |
| `Ingest.ReplayIsSilent` | gateway/src/workflow_ingest.rs:151-180 | ingesting the same payload again changes no row and emits no event |
| `Ingest.RegressionEmitsAgain` | gateway/src/workflow_ingest.rs:115-115 | completed, in_progress, completed emits two completion events: the at-most-once claim is false |
| `IngestRuns.CompletionsCountReads` | gateway/src/workflow_ingest.rs:94-180 | in every interleaving, a run's committed completion events number exactly the committed ingests that brought a completed payload and read a status that was not completed |
| `IngestRuns.AtMostOnceWithoutRegressionOrRace` | gateway/src/workflow_ingest.rs:94-180 | in every interleaving in which no upsert takes a completed run back and no read sees an edge that another open transaction has seen, a run has at most one completion event |
| `IngestRuns.RaceEmitsTwice` | gateway/src/workflow_ingest.rs:94-100 | for every completed payload of a new run, a run of two concurrent ingests of it commits two completion events where there is one edge |
| `Ingest.Gateway.IngestWorkflowRun` | gateway/src/workflow_ingest.rs:39-183 | the handler's statements compute exactly the serial ingest of the payload, and which payloads add which deployment is stated on the payload fields |
| `Ingest.Gateway.InferDeployment` | gateway/src/workflow_ingest.rs:332-389 | inserts deployment and event together, or neither if the unique index already holds the run |
| `Ingest.IngestDeploys` | gateway/src/workflow_ingest.rs:151-180 | on the payload fields: exactly a completed, successful run of the default branch, started by push, release or workflow_dispatch, that was not stored as completed and has no deployment, gets one, with its commit and its end |
| `Ingest.IngestStoresRow` | gateway/src/workflow_ingest.rs:102-149 | column by column: the row is the payload's, except that a missing workflow or end keeps the stored one; no other row changes |
| `IngestRuns.DeploymentsAreSerial` | gateway/src/workflow_ingest.rs:151-180 | in every interleaving the committed deployments are those that the committed, newly completed payloads add one after the other in the order of their commits |
| `IngestRuns.DeploymentsComeFromPayloads` | gateway/src/workflow_ingest.rs:151-180 | in every interleaving each committed deployment has the commit and time of a committed payload that goes to production (on the payload fields), and the run of every such payload is deployed |
| `Pipeline.RunKeepsInv` | gateway/src/workflow_ingest.rs:291-330 | in the composed system the outbox holds exactly the committed events |
| `Pipeline.EventsPersist` | gateway/src/events.rs:66-105 | no committed event ever leaves the outbox or changes, across ingests and replicas |
| `Pipeline.NoSilentLoss` | gateway/src/workflow_ingest.rs:94-180 | in every interleaving of ingests, replicas, acks, nacks, connection losses and rollbacks, each run stored as completed has a `workflow_run.completed` row that is pending with attempts left, published after an ack, or failed after exactly 8 nacks |
| `Pipeline.NothingInvented` | gateway/src/events.rs:66-105 | every outbox row is the event of a committed ingest, and a deployment event has its deployment |
| `AiTables.ClaimEventKeepsIntegrity` | ai-worker/src/buildlens_ai/database.py:83-164 | a redelivery changes nothing; a claim is handed out exactly for a new event that asks for a report nobody has, with a fresh unstarted report and a pending receipt linked to it; any other new event is closed at once; integrity is kept |
| `AiTables.RetriggerKeepsIntegrity` | ai-worker/src/buildlens_ai/database.py:312-366 | a retrigger keeps integrity; a failed report of the run and kind becomes pending and is handed out, any other existing one is left alone and nothing is handed out, and without one a new report is; every earlier charge and month stays |
| `AiTables.ScheduledKeepsIntegrity` | ai-worker/src/buildlens_ai/database.py:368-410 | a scheduled claim keeps integrity; it is handed out exactly if the repository has no report of that kind since the period start, is then the only one, and no later attempt in the period gets another |
| `AiTables.TransactionsTouch` | ai-worker/src/buildlens_ai/database.py:166-308 | marking, completing, failing and recovering change no event, no link, no run and no kind, and open only linked receipts |
| `AiTables.TouchesKeepIntegrity` | infra/migrations/000007_ai.up.sql:49-50 | such a change keeps integrity and every outstanding claim |
| `AiTables.JoinIsOneToOne` | ai-worker/src/buildlens_ai/database.py:423-438 | with injective links the left join yields exactly one row per report, in order, without a receipt exactly if no receipt belongs to the report |
| `AiTables.RecoveryBatchIsDistinct` | ai-worker/src/buildlens_ai/database.py:421-466 | one recovery batch never hands out a report twice |
| `AiTables.TransactionEffects` | ai-worker/src/buildlens_ai/database.py:166-308 | recovering or starting a report is one more attempt on its receipt and costs nothing; completing or failing adds the usage column by column and no attempt; a completed report is not restarted |
| `AiBudgetProofs.RecoverTakesWhatWaits` | ai-worker/src/buildlens_ai/database.py:421-466 | the protocol's recovery starts one task for each of the first ten reports, every one pending, or processing and stale; these become processing with one more attempt, and every other row, a fresh processing, completed or failed report among them, stays as it is |
| `AiBudgetProofs.RecoverAllRows` | ai-worker/src/buildlens_ai/database.py:445-457 | after a recovery exactly the handed-out reports are processing and exactly their receipts have one more attempt |
| `AiBudgetProofs.StepKeepsInv` | ai-worker/src/buildlens_ai/processor.py:33-88 | every step of every worker, with failing writes, unlocks, connections and crashes, keeps claim integrity, usage accounting and the reservation of the lock holder |
| `AiBudgetProofs.CheckKeepsInv` | ai-worker/src/buildlens_ai/processor.py:43-48 | the spend check admits a call only if its projection fits the month, and that stays true until it is recorded |
| `AiBudgetProofs.RecordConserves` | ai-worker/src/buildlens_ai/database.py:197-223 | recording a charge adds it to its report and no other, on top of what was there |
| `AiBudgetProofs.ExcessGrows` | ai-worker/src/buildlens_ai/processor.py:43-88 | a charge adds to its month's excess its whole cost if it was recorded late or checked against another month, else exactly what it overran its projection by, and nothing to other months |
| `AiBudgetProofs.LateRecordStaysCovered` | ai-worker/src/buildlens_ai/processor.py:78-88 | a charge recorded outside the lock moves spend and its own excess alike, so nobody's reservation is disturbed |
| `AiBudgetRuns.SpendIsCapped` | ai-worker/src/buildlens_ai/database.py:468-490 | in every interleaving, every month's spend is at most the cap plus what was recorded late, straddled a month, or overran its projection |
| `AiBudgetRuns.OverspendIsLate` | ai-worker/src/buildlens_ai/processor.py:38-88 | with reports admitted in their month and costs within projection, a month exceeds the cap by at most what was recorded outside the lock, in runs with any faults |
| `AiBudgetRuns.CapIsHard` | ai-worker/src/buildlens_ai/processor.py:38-71 | if moreover no step so far recorded a charge outside the lock, no month exceeds the cap, whatever crashes, lost connections, failed writes and failed unlocks there were |
| `AiBudgetRuns.PricedCapIsHard` | ai-worker/src/buildlens_ai/llm.py:45-107 | the same from the tokens up: calls that keep to their counted input and maximum output tokens cannot exceed their projection, so the cap is hard |
| `AiBudgetLimits.BacklogMultipliesCost` | ai-worker/src/buildlens_ai/database.py:481-490 | for every n, every priced call the settings allow and every cap that admits it, there is a run from the empty database in which n reports of one month, each with such a call recorded under the lock, are all admitted in another month, and their own month reaches n times the call's cost |
| `AiBudgetLimits.StraddlePassesCap` | ai-worker/src/buildlens_ai/database.py:486-487 | for every cap that admits an allowed call, a run past it without a late charge and with every call priced |
| `AiBudgetLimits.OverrunPassesCap` | ai-worker/src/buildlens_ai/processor.py:43-60 | for every cap that admits an allowed call, a run past it by one call billed for more tokens than were counted, in its month and recorded under the lock |
| `AiBudgetLimits.LateChargePassesCap` | ai-worker/src/buildlens_ai/processor.py:78-88 | for every cap that admits an allowed call, a run past it by one charge recorded late, with every call priced and in its month |
| `AiBudgetLimits.ProjectionsHaveAMinimum` | ai-worker/src/buildlens_ai/config.py:21-24 | no allowed projection is below 1280 millionths of a dollar |
| `AiBudgetLimits.UnaffordableCallsAreNotMade` | ai-worker/src/buildlens_ai/processor.py:43-48 | in every run in which every projection exceeds the cap, no call is ever made |
| `AiBudgetRuns.StraddledChargeIsUnchecked` | ai-worker/src/buildlens_ai/database.py:486-487 | a charge admitted in another month than its report's raises its own month in full and leaves the month it was checked against as it was |
| `AiBudgetRuns.FailedUnlockChargesTwice` | ai-worker/src/buildlens_ai/processor.py:61-88 | an unlock that fails after the in-lock failure path leads to a second recording |
| `AiBudgetRuns.ClaimsStayIntact` | ai-worker/src/buildlens_ai/database.py:83-466 | in every interleaving of deliveries, redeliveries, retriggers, schedules and recovery: one receipt per event, one report per run and kind, injective links, open receipts linked, and no report twice in a recovery batch |
| `AiBudgetRuns.FaultlessRunIsClean` | ai-worker/src/buildlens_ai/processor.py:33-88 | if writes and unlocks succeed, no charge is lost, doubled or recorded outside the lock |
| `AiBudgetRuns.UsageIsConserved` | ai-worker/src/buildlens_ai/database.py:197-299 | if writes and unlocks succeed, each report stores exactly the tokens, cost and latency of all model calls that returned for it, across failures, recovery and retrigger |
| `AiBudgetRuns.FaultsAreAccounted` | ai-worker/src/buildlens_ai/processor.py:61-88 | with faults, every finished call is recorded 0, 1 or 2 times, and the lost and doubled ones are known exactly |
| `AiService.AiDatabase.ClaimEvent` | ai-worker/src/buildlens_ai/database.py:83-164 | statement by statement: exactly the claim transaction, keeping integrity |
| `AiService.AiDatabase.MarkProcessing` | ai-worker/src/buildlens_ai/database.py:166-184 | exactly the marking transaction: it spares completed reports, keeps usage, and leaves every other row and column alone |
| `AiService.AiDatabase.CompleteReport` | ai-worker/src/buildlens_ai/database.py:186-235 | exactly the completing transaction: report and receipt end completed, every other row and column is left alone |
| `AiService.AiDatabase.FailReport` | ai-worker/src/buildlens_ai/database.py:237-308 | exactly the failing transaction, adding usage only if there is any: report and receipt end failed, every other row and column is left alone |
| `AiService.AiDatabase.ClaimRecoverable` | ai-worker/src/buildlens_ai/database.py:421-466 | hands out at most ten claims, of distinct unlocked reports, each pending, or processing and stale, before, and marked after; such a report is passed over only for ten requested no later; integrity is kept |
| `AiService.AiDatabase.SelectRecoverable` | ai-worker/src/buildlens_ai/database.py:423-438 | selects exactly the unlocked reports that are pending, or processing and stale, each once, in order of their request |
| `AiService.AiDatabase.Process` | ai-worker/src/buildlens_ai/processor.py:33-88 | the flags and nested try blocks leave exactly the specified tables and number of charges, for every combination of outcomes |
| `AiServiceRuns.LoneWorkerIsProcess` | ai-worker/src/buildlens_ai/processor.py:33-88 | from any state of the budget protocol, for every combination of outcomes, the steps of one worker taken alone leave exactly the tables `Process` leaves, with its model call recorded exactly `Charges` times |
| `AiService.RecoveryIsSound` | ai-worker/src/buildlens_ai/database.py:421-466 | a recovery batch is distinct, its claims are valid, afterwards report and receipt of each are processing, and integrity is kept |
| `AiService.ProcessRecordsUsage` | ai-worker/src/buildlens_ai/processor.py:33-103 | one call to process adds its model call's usage `Charges` times to its report and changes no other report |
| `AiService.ProcessDecides` | ai-worker/src/buildlens_ai/processor.py:33-88 | report and receipt end both completed or both failed; if no closing write succeeded, recovery can still find the report |
| `AiService.ChargedTwiceOrNever` | ai-worker/src/buildlens_ai/processor.py:61-88 | exactly when a returned call is recorded twice, and exactly when not at all |
| `Cost.HalfEvenIsNearest` | ai-worker/src/buildlens_ai/llm.py:144-159 | the rounding is the one nearest millionth with ties to even |
| `Cost.HalfEvenMonotone` | ai-worker/src/buildlens_ai/llm.py:144-159 | rounding preserves order |
| `Cost.ProjectionDominatesCost` | ai-worker/src/buildlens_ai/llm.py:45-62 | for every model priced or not: both costs exist or neither; within the token bounds the rounded cost is at most the rounded projection |
| `Cost.ProjectionIsAttained` | ai-worker/src/buildlens_ai/llm.py:55-62 | the projection is tight: writing all counted tokens to the cache and using all output tokens costs exactly it |
| `Cost.RateTable` | ai-worker/src/buildlens_ai/llm.py:21-25 | which models have a price, and which |
| `Cost.TokenPrices` | ai-worker/src/buildlens_ai/llm.py:144-159 | n fresh input tokens cost n times the input rate, n output tokens n times the output rate |
| `Cost.CachePrices` | ai-worker/src/buildlens_ai/llm.py:153-157 | ten cache reads cost as much as one fresh token, four cache writes as much as five |
| `Cost.BillIsTheRoundedSum` | ai-worker/src/buildlens_ai/llm.py:144-159 | any mix costs the whole millionth nearest to the sum of its four prices, ties to even |
| `Webhooks.StepKeepsInv` | gateway/src/webhooks.rs:107-269 | receive, claim, apply, ignore, fail, abandon and a safe restart keep: ids unique, attempts bounded, invalid rows untouched, a scoped row in hand is in one hand and cannot be claimed, a scoped row has its facts exactly if processed |
| `Webhooks.RestartKeepsInv` | gateway/src/webhooks.rs:108-117 | restart recovery keeps all this when no other processor has a scoped delivery with attempts left in hand, and leaves nothing in processing |
| `Webhooks.AppliedAtMostOnce` | gateway/src/webhooks.rs:165-294 | over every run in which processors start safely: each delivery id's facts are committed at most once and exactly if it is marked processed, attempts never exceed 5, an invalidly signed delivery is never applied, ids are unique |
| `Webhooks.QuiescentMeansDecided` | gateway/src/webhooks.rs:144-200 | at quiescence every valid delivery is processed, ignored, or failed with exactly 5 attempts |
| `Webhooks.UnsafeStartAppliesTwice` | gateway/src/webhooks.rs:108-117 | the condition is exact: from every state reached by safe starts in which a processor has a scoped delivery with attempts left in hand, a second processor's start extends the run to one that commits its facts twice, whatever else is queued |
| `Webhooks.SecondProcessorAppliesTwice` | gateway/src/webhooks.rs:108-117 | a run from the empty queue in which a second processor's restart leads to one delivery's facts being committed twice |
| `Webhooks.RemainingUpdate` | gateway/src/webhooks.rs:165-200 | changing one row changes the sum of (5 - attempts) over claimable rows by that row's share |
| `Webhooks.Queue.Receive` | gateway/src/webhooks.rs:38-105 | inserts a row exactly if the delivery id is new, as received or ignored by its signature |
| `Webhooks.Queue.ClaimDelivery` | gateway/src/webhooks.rs:165-200 | takes the oldest row that is received or failed, valid and below five attempts, and counts an attempt; finds none exactly if there is none |
| `Webhooks.Queue.ProcessOne` | gateway/src/webhooks.rs:144-163 | one iteration is the protocol's claim of the oldest claimable row followed by apply, ignore, fail or abandon; an errored delivery ends failed with one more attempt and stays claimable exactly while these are below five; facts are committed only with the processed mark |
| `Webhooks.IterationIsTwoSteps` | gateway/src/webhooks.rs:144-200 | for every outcome: claiming and then the protocol's step of that outcome leads from the old rows and facts to the new ones, with the status each outcome dictates |
| `Webhooks.Queue.Drain` | gateway/src/webhooks.rs:107-142 | while deliveries come in between its iterations: terminates for every sequence of outcomes once no more arrive, and unless interrupted leaves nothing claimable; every delivery stays, untouched if it was not claimable, and facts still match the processed marks |
| `Backfill.PageAdvances` | gateway/src/repository_sync.rs:103-141 | committing a page with its checkpoint stores its rows, the next cursor and a first page's ETag, and earns that cursor: everything before it is stored |
| `Backfill.StoringIsFaithful` | gateway/src/repository_sync.rs:104-123 | upserting a page stores chain items and keeps every other row |
| `Backfill.RunKeepsInv` | gateway/src/repository_sync.rs:398-477 | any sequence of errors, crashes, restarts and overlapping syncs keeps cursor and ETag truthful |
| `Backfill.ResumeIsSound` | gateway/src/repository_sync.rs:87-141 | a cursor at page k means all pages before k are stored; an ETag without a cursor means all are; finishing on a 304 or on the last page happens only over a complete table |
| `Backfill.Resource.Sync` | gateway/src/repository_sync.rs:79-142 | the page loop terminates; the pages it stored are those from the old cursor on, up to the last or to the request that failed, where the new cursor resumes; it succeeds without faults and only over a complete table; a 304 to the stored ETag stores nothing |
| `Backfill.LoneSyncIsTheLoop` | gateway/src/repository_sync.rs:87-141 | the protocol steps of one syncer by itself store what the loop stores, page by page from the cursor, with the ETag in the first request of a fresh chain alone |
| `Backfill.LoneSyncEnds` | gateway/src/repository_sync.rs:440-475 | it then finishes, clearing the cursor, or records the error and keeps it |
| `Paths.SplitFindsComponents` | ai-worker/src/buildlens_ai/redaction.py:124-126 | splitting yields exactly the maximal slash-free stretches between slashes and the ends |
| `Paths.SafePathsStayInside` | ai-worker/src/buildlens_ai/redaction.py:124-126 | a name is refused iff it is absolute or has a parent-directory component, under either separator |
| `Evidence.WindowsAreWindows` | ai-worker/src/buildlens_ai/redaction.py:109-121 | merged windows are sorted, non-empty, strictly separated, inside the file, and cover exactly the lines within 2 of a marker |
| `Evidence.WindowsAreUnique` | ai-worker/src/buildlens_ai/redaction.py:109-121 | those properties leave only one possible result |
| `Evidence.MatchingWindows` | ai-worker/src/buildlens_ai/redaction.py:109-121 | the loop that edits its last window computes those windows |
| `Evidence.TakeWindows` | ai-worker/src/buildlens_ai/redaction.py:88-105 | takes windows while both running totals stay within their limits and stops at the first that does not fit |
| `Evidence.ExtractFailureRanges` | ai-worker/src/buildlens_ai/redaction.py:64-106 | the result is the longest prefix, in archive order, of all windows of readable entries whose lines and bytes fit both limits; the two errors occur exactly on too many entries, and on reaching the entry that passes the data limit |
| `Evidence.StoppedForGood` | ai-worker/src/buildlens_ai/redaction.py:92-95 | after the early return no later entry could have been reached |
| `Evidence.CandidateLinesAreEvidence` | ai-worker/src/buildlens_ai/redaction.py:88-103 | every line number of every range is, in a readable entry of that name, within two lines of a marked line |
| `Evidence.EvidenceLinesAreCandidates` | ai-worker/src/buildlens_ai/redaction.py:88-103 | conversely, every evidence line of every entry is in a candidate range of its name |
| `Evidence.CandidatesAreWindows` | ai-worker/src/buildlens_ai/redaction.py:88-103 | a candidate range has the redacted text of its own lines, and the lines next to it are no evidence |
| `Evidence.EvidenceIs` | ai-worker/src/buildlens_ai/redaction.py:21-24 | the limits in plain numbers: no directory, at most 2 MiB, a safe name, two lines around a marked line, 8 MiB in all |
| `Evidence.JoiningTwo` | ai-worker/src/buildlens_ai/redaction.py:89-89 | joined text has one line feed between neighbours and nothing else |
| `Evidence.SelectionIsLongest` | ai-worker/src/buildlens_ai/redaction.py:92-95 | a selection keeps both limits and every longer prefix breaks one |
| `Evidence.MarkedFilesAreLarger` | ai-worker/src/buildlens_ai/redaction.py:86-87 | a file with an error line has at least three bytes more than lines |
| `Grounding.ValidateFrom` | ai-worker/src/buildlens_ai/context.py:225-243 | no error iff no item has a fault; otherwise the error names the first faulty item and its first fault |
| `Grounding.AcceptedIffGrounded` | ai-worker/src/buildlens_ai/context.py:225-255 | a report is accepted iff every finding and recommendation has evidence, cites only known ids and only available ranges |
| `Grounding.FaultsMean` | ai-worker/src/buildlens_ai/context.py:228-255 | an item is refused for citing nothing, else for an id that is not in the context, else for a range that exceeds every supplied range of its source, and else not |
| `Grounding.FirstFaultIsRaised` | ai-worker/src/buildlens_ai/context.py:226-243 | the error is the first fault of the first faulty item, findings before recommendations |
| `Grounding.AcceptedReportsAreGrounded` | ai-worker/src/buildlens_ai/context.py:225-255 | end to end: every line an accepted report cites is within two lines of a marked line in a safe archive entry of the cited name |
| `Grounding.EndsAreEvidenceIffOrdered` | ai-worker/src/buildlens_ai/models.py:32-35 | for every cited range: in every archive and extraction that make it available both its ends are evidence lines, exactly if start <= end, its source is an unsafe name, or its end lies past the lines an entry that is read can have |
| `Grounding.OutOfReachIsUnavailable` | ai-worker/src/buildlens_ai/redaction.py:79-82 | a range of an unsafe name, or that ends past the lines a 2 MiB entry with an error line can have, is never available |
| `Grounding.InvertedRangeIsAvailable` | ai-worker/src/buildlens_ai/context.py:236-243 | every inverted range of a safe name with an end in reach is available, under the default limits, from a log of line breaks that says "fail" where the range ends, so that its start is no line of it |
| `Grounding.InvertedRangeIsAccepted` | ai-worker/src/buildlens_ai/context.py:236-243 | for a concrete archive of one log, four blank lines and "fail" in eight bytes, and what is extracted from it, a report that cites lines 9 to 5 is accepted |
| `Percentile.Sort` | analytics/src/main/java/dev/buildlens/analytics/metrics/MetricMath.java:14-15 | a sorted permutation of the samples |
| `Percentile.SortedIsUnique` | analytics/src/main/java/dev/buildlens/analytics/metrics/MetricMath.java:14-15 | a bag of samples has one sorted listing |
| `Percentile.AtMonotone` | analytics/src/main/java/dev/buildlens/analytics/metrics/MetricMath.java:16-24 | interpolation with rounding is monotone in the position, across cells |
| `Percentile.PercentileInRange` | analytics/src/main/java/dev/buildlens/analytics/metrics/MetricMath.java:10-25 | the result lies between the least and the greatest sample |
| `Percentile.PercentileIgnoresOrder` | analytics/src/main/java/dev/buildlens/analytics/metrics/MetricMath.java:10-25 | the result depends only on the multiset of samples |
| `Percentile.PercentileMonotone` | analytics/src/main/java/dev/buildlens/analytics/metrics/MetricMath.java:10-25 | a higher percentile never gives a smaller result, so p50 <= p90 |
| `Percentile.PercentileExtremes` | analytics/src/main/java/dev/buildlens/analytics/metrics/MetricMath.java:10-25 | percentile 0 is the minimum and percentile 1 the maximum |
| `Percentile.PercentileInterpolates` | analytics/src/main/java/dev/buildlens/analytics/metrics/MetricMath.java:10-25 | in plain arithmetic: t past sample i the result is sample i for t = 0, and else the integer nearest to s[i] * (1 - t) + s[i + 1] * t, halves upwards |
| `Percentile.OddMedian` | analytics/src/main/java/dev/buildlens/analytics/metrics/MetricMath.java:10-25 | p50 of an odd number of samples is the middle one |
| `Percentile.EvenMedian` | analytics/src/main/java/dev/buildlens/analytics/metrics/MetricMath.java:10-25 | p50 of an even number is the half-up mean of the two middle ones |
| `Calendar.MonthsAreConsecutive` | analytics/src/main/java/dev/buildlens/analytics/metrics/Granularity.java:12-34 | each month starts the day after the previous one ends, over all years and leap years |
| `Calendar.EveryDayIsADate` | analytics/src/main/java/dev/buildlens/analytics/metrics/Granularity.java:12-34 | every day number is a calendar date |
| `Calendar.DatesAreDistinct` | analytics/src/main/java/dev/buildlens/analytics/metrics/Granularity.java:12-34 | and of only one |
| `Calendar.PeriodsPartitionTheCalendar` | analytics/src/main/java/dev/buildlens/analytics/metrics/Granularity.java:12-34 | for each granularity a date is in its own period, and two dates share a period iff one's period contains the other |
| `Calendar.PeriodLengths` | analytics/src/main/java/dev/buildlens/analytics/metrics/Granularity.java:12-34 | one day, Monday to Sunday, or the length of the month |
| `Calendar.MonthLengths` | analytics/src/main/java/dev/buildlens/analytics/metrics/Granularity.java:12-34 | the months have 31, 30, 28 or 29 days |
| `Rates.RateIsAFraction` | analytics/src/main/java/dev/buildlens/analytics/metrics/DoraService.java:86-88 | a part over its whole, rounded half up to four decimals, stays within [0, 1] |
| `Rates.HalfUpIsNearest` | analytics/src/main/java/dev/buildlens/analytics/metrics/DoraService.java:84-88 | the rate is the one ten-thousandth nearest to the ratio, halves upwards |
| `Dora.NextSuccessIsEarliest` | analytics/src/main/java/dev/buildlens/analytics/metrics/DoraService.java:169-183 | the recovery time is a qualifying success, and no qualifying one is earlier |
| `Dora.RecoversMeans` | analytics/src/main/java/dev/buildlens/analytics/metrics/DoraService.java:169-183 | what qualifies: a later production success of the same repository |
| `Dora.ClassifyMeans` | analytics/src/main/java/dev/buildlens/analytics/metrics/DoraService.java:169-205 | failure, failed and error mean failure, success and successful mean success, in any letter case, and no other status means either |
| `Dora.LoadMeans` | analytics/src/main/java/dev/buildlens/analytics/metrics/DoraService.java:138-167 | the effective time is the first of deployed, started and created; the author time comes from the commit by id, or by sha only if there is no id |
| `Dora.SelectedMeans` | analytics/src/main/java/dev/buildlens/analytics/metrics/DoraService.java:63-161 | a period selects exactly the production deployments of its scope on its days |
| `Dora.TallyCounts` | analytics/src/main/java/dev/buildlens/analytics/metrics/DoraService.java:67-81 | count and failures are numbers of selected deployments, and each sample value occurs as often as selected deployments have that lead or recovery time |
| `Dora.TallySplits` | analytics/src/main/java/dev/buildlens/analytics/metrics/DoraService.java:138-167 | counts, failures and both sample bags of a span are those of its two parts together |
| `Dora.PeriodRollsUp` | analytics/src/main/java/dev/buildlens/analytics/metrics/DoraService.java:58-81 | for every date and granularity, counts equal the sums over the period's days and samples are the multiset unions |
| `Dora.StoredRowsRollUp` | analytics/src/main/java/dev/buildlens/analytics/metrics/DoraService.java:58-136 | for the stored table: if the row of a period and the daily rows of all dates of that period are up to date, the period's counts are the sums of theirs |
| `DoraChanges.OtherSpansKeepCounts` | analytics/src/main/java/dev/buildlens/analytics/metrics/DoraService.java:169-183 | one more deployment outside a row's scope or period leaves count, failures and lead-time samples as they are, and the recovery samples exactly if it hastens no recovery of the row's failures |
| `DoraChanges.OtherRowsKeepCounts` | analytics/src/main/java/dev/buildlens/analytics/metrics/DoraService.java:58-136 | so a stored row that is not recomputed keeps right counts and lead-time percentiles, and is right throughout if no recovery is hastened |
| `DoraChanges.FirstRecoveryIsMissed` | analytics/src/main/java/dev/buildlens/analytics/metrics/DoraService.java:169-183 | a row without recovery times is out of date once a first recovery arrives outside its period |
| `DoraChanges.RecomputeKeepsCounts` | analytics/src/main/java/dev/buildlens/analytics/metrics/DoraService.java:27-41 | after one deployment arrives and its date is recomputed, every row the table had still has the right counts, failures and lead times |
| `DoraChanges.StoredOrganizationRollsUp` | analytics/src/main/java/dev/buildlens/analytics/metrics/DoraService.java:36-40 | the organization's stored counts and failures are the sums of its repositories' stored ones |
| `Dora.OneMoreFact` | analytics/src/main/java/dev/buildlens/analytics/metrics/DoraService.java:140-140 | a deployment is counted for exactly one of distinct repositories, or for none |
| `Dora.OrganizationRollsUp` | analytics/src/main/java/dev/buildlens/analytics/metrics/DoraService.java:138-167 | the organization's counts and samples equal those of its repositories together |
| `Dora.Collect` | analytics/src/main/java/dev/buildlens/analytics/metrics/DoraService.java:67-81 | the loop's lists and counter are exactly the tally of the selected deployments |
| `Dora.Summarize` | analytics/src/main/java/dev/buildlens/analytics/metrics/DoraService.java:63-92 | the row reports exactly those totals: counts, frequency, rate, and percentiles of any listing of the samples |
| `Dora.RatesAreNearest` | analytics/src/main/java/dev/buildlens/analytics/metrics/DoraService.java:83-88 | the frequency is deployments per day and the failure rate failures per deployment, each to the nearest ten-thousandth; without deployments there is no rate |
| `Dora.RowIsCoherent` | analytics/src/main/java/dev/buildlens/analytics/metrics/DoraService.java:83-92 | in every row failures <= count, the failure rate is a fraction, and p50 <= p90 |
| `Dora.MetricTable.Write` | analytics/src/main/java/dev/buildlens/analytics/metrics/DoraService.java:58-136 | upserts the one row of its scope and period, from the facts alone |
| `Dora.MetricTable.Recompute` | analytics/src/main/java/dev/buildlens/analytics/metrics/DoraService.java:27-41 | brings both scopes' rows of all granularities up to date and touches no other period; a missing or deleted repository changes nothing |
| `Flaky.SummaryMeetsReset` | analytics/src/main/java/dev/buildlens/analytics/metrics/FlakyTestService.java:134-149 | the query has a line for a test exactly if the reset's NOT EXISTS spares it |
| `Flaky.FlakyIffMixed` | analytics/src/main/java/dev/buildlens/analytics/metrics/FlakyTestService.java:48-64 | there is a flip iff some workflow and commit has both a pass and a fail |
| `Flaky.TransitionsAreRunsMinusPartitions` | analytics/src/main/java/dev/buildlens/analytics/metrics/FlakyTestService.java:48-65 | transitions = counted runs - partitions |
| `Flaky.FlipsAreBounded` | analytics/src/main/java/dev/buildlens/analytics/metrics/FlakyTestService.java:59-65 | flips <= 2 * min(passed, failed), flips <= transitions, passed + failed = total |
| `Flaky.VerdictIsCharacterised` | analytics/src/main/java/dev/buildlens/analytics/metrics/FlakyTestService.java:28-93 | from the raw results: flaky iff two runs of one workflow and commit disagree; the counts' bounds; the rate in [0, 1] |
| `Flaky.FlakyTable.Upsert` | analytics/src/main/java/dev/buildlens/analytics/metrics/FlakyTestService.java:94-131 | overwrites one row's counts, verdict, window and times and keeps its quarantine flag |
| `Flaky.FlakyTable.Reset` | analytics/src/main/java/dev/buildlens/analytics/metrics/FlakyTestService.java:134-149 | clears counts and verdict of exactly the repository's tests without a counted result |
| `Flaky.FlakyTable.Recompute` | analytics/src/main/java/dev/buildlens/analytics/metrics/FlakyTestService.java:25-150 | with results committed between its statements: every stored verdict of the repository is that of the results the query saw, inside the window with both ends, or silent if the reset saw none, whatever the old row was; only a test the query had no line for and the reset spares keeps its row; other repositories and quarantine flags are untouched |
| `Flaky.CurrentIffNoneStale` | analytics/src/main/java/dev/buildlens/analytics/metrics/FlakyTestService.java:28-149 | when results only arrive in between, the stored verdicts are those of the query's results exactly if no telling old verdict belongs to a test whose first counted result arrived after the query |
| `FlakyMeaning.FlakyIffContradicted` | analytics/src/main/java/dev/buildlens/analytics/metrics/FlakyTestService.java:28-93 | on the stored results: flaky exactly if two runs of one commit and one workflow contradict each other, one with a pass and no failure, the other with a failure or error |
| `FlakyMeaning.ObservationsMean` | analytics/src/main/java/dev/buildlens/analytics/metrics/FlakyTestService.java:30-54 | the query has one row per run that passed or failed the test, with its partition, its last time and whether nothing failed, and no other row |
| `FlakyMeaning.OutcomeMeans` | analytics/src/main/java/dev/buildlens/analytics/metrics/FlakyTestService.java:38-40 | a failed or errored result outweighs a pass, a pass outweighs a skip |
| `FlakyMeaning.PartitionMeans` | analytics/src/main/java/dev/buildlens/analytics/metrics/FlakyTestService.java:34-50 | runs are compared if they are of one commit and one workflow; a run without a workflow only with itself |
| `FlakyMeaning.FlipsAreAdjacentChanges` | analytics/src/main/java/dev/buildlens/analytics/metrics/FlakyTestService.java:49-65 | listed by time and then by run, every row but the first is a transition, and a flip is a row whose outcome differs from that of the row right before it |
| `FlakyMeaning.VerdictCounts` | analytics/src/main/java/dev/buildlens/analytics/metrics/FlakyTestService.java:59-93 | total, passed and failed are numbers of runs, and the rate is flips over transitions, of which each partition has one fewer than runs |
| `Organizations.ChangeKeepsAnOwner` | gateway/src/routes/organizations.rs:139-293 | an accepted addition, change or removal leaves an owner |
| `Organizations.ConflictIsNecessary` | gateway/src/routes/organizations.rs:338-355 | the owner check refuses only writes that would have left none |
| `Organizations.DecisionsMean` | gateway/src/routes/organizations.rs:139-355 | in roles: only admins and owners act, only owners give or take admin and owner, and each error occurs exactly in its case, in the handlers' order |
| `Organizations.AcceptedMeans` | gateway/src/routes/organizations.rs:139-293 | an accepted request sets or removes its one user and touches no other membership |
| `Organizations.OnlyActiveTeamsChange` | gateway/src/routes/organizations.rs:295-314 | a missing or deleted organization is not found, a personal one a bad request, and only an active team changes, in its members alone |
| `Organizations.StepKeepsInv` | gateway/src/routes/organizations.rs:139-355 | under the row lock whatever a request has read is still true when it writes |
| `Organizations.CommitIsAtomic` | gateway/src/routes/organizations.rs:139-293 | a commit has exactly the effect of serving the whole request at that instant |
| `Organizations.RefusalIsAtomic` | gateway/src/routes/organizations.rs:139-355 | a refusal, at whatever check, is the error the whole request meets at that instant, and changes nothing |
| `Organizations.RunIsSerial` | gateway/src/routes/organizations.rs:295-314 | every interleaving equals serving the committed requests one at a time, in commit order |
| `Organizations.OwnersRemain` | gateway/src/routes/organizations.rs:139-355 | an organization that has an owner has one in every later state of every interleaving |
| `Organizations.CreatedOrganizationsAreOwned` | gateway/src/routes/organizations.rs:42-95 | every organization created in a run has an owner from then on |
| `Organizations.PersonalOrganizationsAreFixed` | gateway/src/routes/organizations.rs:308-312 | no request ever changes a personal organization |
| `Organizations.OrganizationStore.CreateTeam` | gateway/src/routes/organizations.rs:62-95 | refused exactly if the slug is taken; otherwise a team owned by its creator |
| `Organizations.OrganizationStore.AddMember` | gateway/src/routes/organizations.rs:139-218 | the handler's checks, in its order, give exactly the served reply and directory |
| `Organizations.OrganizationStore.RemoveMember` | gateway/src/routes/organizations.rs:237-293 | the same for removal |

## Left out

- HTTP handlers, OAuth, sessions, API tokens, the GitHub client, the frontend and the dashboard read models: plumbing and presentation.
- Cryptography, signature checking and secret handling; a webhook's signature verdict is an input.
- The patterns of `redact` and of the error markers, zip and XML decoding and object storage: a line carries whether it is marked, its size and its redacted bytes. That a marked line has at least four bytes and that redaction never empties a line is read off the patterns.
- The language model: a step that returns usage or fails. Prompts, report text, recommendations and model choice are not modelled.
- Commits whose outcome the client does not learn: a commit succeeds or fails.
- Installation webhooks beyond their queue row: their effects are not in the marking transaction (gateway/src/webhooks.rs:299-360).
- Log and test-report capture after a commit, and the ingestion of workflow jobs, steps, commits and pull requests as rows.
- Build and repository scores, grades, `performanceBand`, configuration checks, `slugify` and `validate_slug`: single-branch or convex arithmetic.
- Integer widths: 32- and 64-bit overflow and the column precisions are not modelled. Doubles are replaced by exact rationals, timestamps by whole seconds, and the monthly cap is a whole number of millionths of a dollar.
- Deletion of rows by hand or by cascade, and row edits by other programs. Facts already stored are not edited: `DoraChanges` adds deployments and `Flaky.CurrentIffNoneStale` adds results.
- `published_at`, `last_error`, audit rows, suite and class names, and other columns no decision reads.
- Backfill.ResumeIsSound: for a fixed page chain, as items of other chains or writers may change a page between requests; a changed first page that keeps its ETag is outside it.
- Backfill.Resource.Sync: a failing `finish_resource` counts as a failed request, and an unparsable stored cursor cannot arise from the model's own checkpoints.
- RelayService.OutboxRelay.DrainBatch: a failing commit is not one of its replies; in `Relay` it is a rollback.
- AiService.AiDatabase.ClaimRecoverable: which reports are stale and which rows others have locked are inputs; reports requested at the same instant come in any order.
- RelayService.OutboxRelay.DrainTick: other transactions commit between its batches, not between the rows of one; rows they hold meanwhile are in `locked`.
- Percentile.PercentileInRange: percentiles are taken in [0, 1], the only ones the analytics ask for; outside it the Java list access throws.
- Organizations.OrganizationStore.CreateTeam: the name and slug are taken as validated and the id as fresh.
