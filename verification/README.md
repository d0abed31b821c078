# Verification of the payment demo's state machines

This Dafny project models four connected parts of the payment demo and proves what each of
them promises over all inputs and all runs.

**Settlement batching with crash replay.** Captures are queued, cut into batches of fixed size,
published, processed and read back. `Settlement.dfy` holds the data and the meaning of each
operation on values, `SettlementBatcher.dfy` the batcher and the service's loop body as objects
updated in place. `Replay.dfy` is about rebuilding the queue from two topics of which only the
order per key is known. `SettlementRuns.dfy` puts capture, read, start, complete and crash
together into a step relation; `SettlementSafety.dfy` proves its invariant and
`SettlementTheorems.dfy` what follows for whole runs. `Dashboard.dfy`, `DashboardAgreement.dfy` and
`DashboardLimits.dfy` model the dashboard's own projection of the same log, prove that it agrees
with the batcher, and say exactly where it does not. `PublishedEvents.dfy` proves what results and
published events say, entry by entry and field by field. `BatchIds.dfy` is the text form of ids.

**The recovery decision.** `Consensus.dfy` is the stateful belief validator and the weighted vote,
`ConsensusTheorems.dfy` the arithmetic of the ratios, `ArrivalOrder.dfy` when the order of beliefs
matters, `ConsensusReports.dfy` what a result reports of its round, `ValidatorRuns.dfy` the validator
over many rounds, and `Gathering.dfy` the collection of beliefs from threads. `Pipeline.dfy`,
`PipelineTheorems.dfy` and `MergeSigns.dfy` cover the merging of RECOVER support, the guardrails and
the executor, and `PipelineActions.dfy` which action is executed. `StateStore.dfy` holds the two
versioned stores and `StoredStories.dfy` what their states tell; `Coordinator.dfy`,
`CoordinatorRuns.dfy` and `ReceptionReports.dfy` are the service on either store and its runs.

**The lifecycle guard.** `Lifecycle.dfy` is the guard on one transaction's events; `Followups.dfy`
the runs the mock pipeline builds and the events a recovery adds to them, and `RecoveryOutcomes.dfy`
proves how these end.

**The detection accumulators.** `Rca.dfy` counts observations per provider and names a cause, with
`RcaConfidence.dfy` on the numbers; `Intent.dfy` weighs evidence of a customer's intent, with
`IntentSignals.dfy` on what each event weighs; and `Detection.dfy` is the consumer that feeds both and
the moving averages, once per event id, with `DetectionTables.dfy` on what it lets in and tells.

Every operation that the source performs step by step is a method proved against a function on
values; the theorems are lemmas about those functions. `hide` statements keep proofs small: they
take definitions away from the verifier and never add a fact. Amounts, weights and confidences are
exact reals.

## Where a promise has a condition

Each of these has the exact condition as a theorem.

- The repository's README (line 150) says that the settlement view sorts batches by sequence. The
  code sorts by the text of the id, which is the same for fewer than 1000 batches and no longer
  (`RowsInSequenceIff`).
- A second result for a batch replaces the first in the settlement service and is ignored by the
  dashboard (`SameStatusIff`, `SecondResult`). The service itself never publishes a second one
  (`NothingAfterResult`).
- Replay is independent of how the topics interleave exactly for covered logs, in which every captured
  transaction that was put in a batch is in a batch that its own events decide (`ConfluenceIff`,
  `DroppedIsUncovered`). Every log the service can write is covered (`LiveIsReplayed`), as is every
  log whose batches have fixed transactions (`FixedBatchesCovered`).
- The dashboard's waiting list is the batcher's queue exactly when no capture without a transaction
  id waits (`WaitingIsPending`, `NamelessHidden`), and its amounts are the queued ones exactly up to
  redeliveries with another amount (`ShownAsQueuedIff`, `AmountsDrift`, `RedeliveryShifts`).
- The order in which beliefs arrive is irrelevant exactly when no belief that would be taken shares
  its id with another whose id is looked at (`OutcomeOrderIff`, `CompletionOrderIff`); for the
  validator's memory alone, when no two taken ids clash (`MemoryOrderIff`).
- The validator's memory outlives a transaction. A stand-in for an unreachable agent uses the state
  version as its id, so it is quarantined from its third transaction at one version on
  (`StandInQuarantinedIff`).
- Support ratios are bounded, and merging keeps quorums above one half, exactly when no two agents
  have weights of opposite signs (`RatiosBoundedIff`, `MergeKeepsIff`). The configured weights are positive.
- Two actions can both reach the consensus threshold, and merging RECOVER support can overturn a
  quorum, exactly when the threshold is at most one half (`OneQuorumIff`, `MergeOverturnsIff`).
- Aggregation raises a KeyError exactly when enough beliefs are valid and one of them votes for a
  settlement action (`KeyErrorIff`); the model keeps that outcome as `None`.
- The two state stores reply alike exactly when no event id is used for two transactions
  (`StoresAgreeIff`, `SharedEventIdDiverges`, `SharedEventIdStalls`).
- A transaction stored as `captured_success` or `settled_success` is terminal to the policy but not to
  the stores, so a later candidate can still be executed for it (`ExecutesFromIff`).
- A state just begun for a candidate never counts as recovered, so the policy's check for that never
  refuses a candidate the store takes on (`ContextTells`).
- The lifecycle guard does not look at which statuses exist. With any status besides success,
  failure and unknown a capture can follow a step that never succeeded (`StatusesMatter`).
- The guard rejects the click that starts the follow-ups of a payment link, and takes what comes
  behind it where it would take a retry's (`LinkAcceptedIff`, `AfterTheClick`).
- A provider that failed at least twice is always named among at most four failing ones
  (`NamedAmongFour`); among five or more equal ones it never is (`PeersHideEachOther`).
- An event whose timestamp does not parse is lost for the moving averages and the intent evidence,
  also when it is delivered again with a good one: its id is taken by then (`AccumulatorsAreFolds`).

## Model

| member | source | states |
|---|---|---|
| BatchIds.BatchIdRoundTrip | services/settlement/main.py:89-91 | Reading a batch id gives back the sequence number it was made from, for every number and suffix, by the service's pattern and by the dashboard's split alike. |
| BatchIds.BatchIndexIff | services/settlement/main.py:89-91 | An id has a number if and only if it starts with batch_ and a digit; the number is that of the digits there, and 1 for any other id. |
| BatchIds.SplitIndexIff | dashboard/server.py:284 | The dashboard reads the part behind the first underscore, or raises an error where there is none or it is not made of digits. |
| BatchIds.AttemptIdsDiffer | recovery/consumer/main.py:71 | Different attempt numbers of one payment have different attempt ids. |
| Settlement.PublishRoundTrip | services/settlement/main.py:27-59 | Publishing a batch and reconciling the event restores all of it but its root-cause fields, if and only if it has an id, transactions, a count, an attempt, a creation time and a batch status. |
| Settlement.RepublishedEvent | common/settlement.py:144-190 | A batch read back and published again tells the same root cause and amounts, timestamps and the batch's own rca field apart. |
| Settlement.ProcessedAccounts | common/settlement.py:121-135 | Settled plus failed equals the total of every processed batch, whose status is final; the root cause of a failure carries the whole total. |
| PublishedEvents.CausesByCode | common/settlement.py:360-391 | The cause and confidence of each failure code, and the amount at risk of a batch, code by code. |
| PublishedEvents.ReadsAs | services/settlement/main.py:39-59 | How an event is read back field by field: which of two fields counts, what stands in for absent ones, and which status words mean what. |
| PublishedEvents.PendingTells | common/settlement.py:61-84 | For any log, what is pending tells the data of some capture in it that counts: captured amount before amount, INR without a currency, its own provider before the event's. |
| PublishedEvents.CountedIsKept | common/settlement.py:61-84 | For any log, every capture that counts has its transaction among the first captures. |
| SettlementService.SettlementBatcher.constructor | common/settlement.py:55-59 | A new batcher is empty. |
| SettlementService.SettlementBatcher.EnqueueCapture | common/settlement.py:61-84 | Appends exactly the final captures whose transaction is neither pending nor in a batch; all else leaves the queue alone. |
| SettlementService.SettlementBatcher.CreateBatch | common/settlement.py:86-119 | Nothing below the batch size; otherwise cuts the oldest captures into a ready batch under the next number. |
| SettlementService.SettlementBatcher.ProcessBatch | common/settlement.py:121-135 | Unknown ids and wrong sizes are errors that change nothing; otherwise just this batch becomes final. |
| SettlementService.SettlementBatcher.RetryBatch | common/settlement.py:137-141 | A retry counts an attempt and processes again; when the size check stops it, attempt and status have already changed. |
| SettlementService.SettlementBatcher.ReconcileSettlementEvent | services/settlement/main.py:27-59 | What reading a settlement event back does to pending captures, batches and sequence number, including the stale and empty cases. |
| SettlementService.SettlementBatcher.HandleMessage | services/settlement/main.py:62-70 | Each topic's messages go to their own operation. |
| SettlementService.SettlementWorker.StartReadyBatch | services/settlement/main.py:105-119 | Publishes ready and processing for the next batch and puts it in flight, or does nothing. |
| SettlementService.SettlementWorker.FinishBatch | services/settlement/main.py:133-136 | Processes one batch by the outcome pattern and publishes its result. |
| SettlementService.SettlementWorker.CompleteDueBatches | services/settlement/main.py:122-136 | Takes the due flights out and finishes them in order, up to the first error. |
| PublishedEvents.DueParts | services/settlement/main.py:128-132 | The due flights are those whose time has come, the clock included, in order; the rest stays. |
| SettlementService.SettlementWorker.ResumeUnfinished | services/settlement/main.py:181-187 | After the replay every ready or processing batch is put in flight once. |
| Replay.ReplayedBatches | services/settlement/main.py:38-59 | For any log, each batch in memory is what the events of its own id decide: the last one, except that results only give way to results. |
| Replay.ReplayedSequence | services/settlement/main.py:34-36 | The sequence number is the greatest number of any batch id in the log. |
| Replay.FirstCapturesExact | common/settlement.py:61-84 | The first captures of a log are the first final capture of each transaction, once each. |
| Replay.ReplayedPending | services/settlement/main.py:27-70 | For any log: apart from what was ever put in a batch, the pending queue is the first captures in order; for covered logs nothing else is pending. |
| Replay.ReplayConfluent | services/settlement/main.py:158-179 | Any interleaving that keeps the order per key gives the same batches and sequence number, and for covered logs the same pending captures. |
| Replay.ReplayConfluentInOrder | services/settlement/main.py:158-179 | If the captures keep their order too, the pending queues agree in order apart from what was ever batched, and for covered logs the whole queue is the same. |
| Replay.ConfluenceIff | services/settlement/main.py:158-179 | The pending captures are the same for all interleavings if and only if the log is covered, which is told per batch id from its own events. |
| Replay.ConfluenceInOrderIff | services/settlement/main.py:158-179 | The same for the whole queue and the interleavings that keep the order of captures. |
| Replay.FixedBatchesCovered | services/settlement/main.py:30-37 | A log is covered if its events have batch ids and each batch id one set of transactions. |
| Replay.DroppedIsUncovered | services/settlement/main.py:37-44 | A log that is not covered, with two interleavings that leave an empty queue and a queue of one. |
| SettlementSafety.StepKeeps | services/settlement/main.py:174-197 | Every step (capture, read, catch up, start, mark, complete, crash) keeps the invariant that ties the service's memory to the logs. |
| SettlementSafety.RunKeeps | services/settlement/main.py:139-200 | The invariant holds in every state of every run with any number of crashes. |
| SettlementTheorems.OneBatchPerTransaction | services/settlement/main.py:105-119 | Over any run, two published events that name one transaction are about the same batch and manifest, which holds the transaction's first capture. |
| SettlementTheorems.NothingAfterResult | services/settlement/main.py:122-136 | After a batch's result nothing is ever published about it again, across crashes. |
| SettlementTheorems.ResultFollowsPattern | services/settlement/main.py:76-91 | The outcome pattern alone decides each published result and its amounts, so no batch is published both ways. |
| PublishedEvents.OutcomeIff | services/settlement/main.py:76-86 | Batch number i succeeds if and only if its deciding entry (the i-th, the last one beyond the pattern and for number 0, success for an empty pattern) is one of the five words, or is random and the digest is at least 20 of 100. |
| PublishedEvents.ResultByEntry | services/settlement/main.py:76-91 | Over any run, the result of the batch that carries number i is a success, with all of it settled, if and only if that entry means success; else all of it failed. |
| PublishedEvents.SecondOfThree | services/settlement/main.py:76-86 | With the pattern success, failed, success the second batch fails and no other. |
| PublishedEvents.EventsTell | common/settlement.py:144-190 | Over any run every published event fits its status: type, outer status, pending amount (all while processing, else nothing), root cause and amount at risk of a failure, times, currency and day of the first capture. |
| SettlementTheorems.InFlightExact | services/settlement/main.py:181-197 | A live service has exactly the unfinished batches in flight, each once, and the size check of processing always passes. |
| SettlementTheorems.ResultsAreFinal | services/settlement/main.py:41-43 | Every later live state shows a published result, whatever old events are read back in between. |
| SettlementTheorems.EachCaptureOnce | common/settlement.py:55-119 | In every live state the accepted captures are, as a collection, the pending ones and those of the batches. |
| SettlementTheorems.MoneyConserved | common/settlement.py:61-135 | Accepted money equals pending, settled, failed and open batch amounts together. |
| SettlementTheorems.LiveIsReplayed | services/settlement/main.py:158-193 | A caught-up live service holds what a replay of its log from scratch gives; its log is covered. |
| SettlementTheorems.CrashesLeaveNoTrace | services/settlement/main.py:158-193 | Two services that have read the same log hold the same state, however often either of them crashed. |
| SettlementTheorems.StartReadyBatchSteps | services/settlement/main.py:105-119 | What `StartReadyBatch` does is two steps of the run relation. |
| SettlementTheorems.ResumeUnfinishedSteps | services/settlement/main.py:181-187 | Once all has been read, what `ResumeUnfinished` adds is one step of the run relation. |
| SettlementTheorems.CompleteDueSteps | services/settlement/main.py:122-136 | In a reachable state `CompleteDueBatches` raises no error and is a sequence of steps of the run relation. |
| Dashboard.PendingSettlementCaptures | dashboard/server.py:316-327 | The loop computes the waiting captures: first position and last content of each transaction not taken by a batch. |
| Dashboard.LastNumber | dashboard/server.py:284 | The greatest batch number, or the error for an id without one. |
| Dashboard.BatchRows | dashboard/server.py:220-274 | The loop computes the row of each batch and what is taken and completed. |
| Dashboard.SortedRows | dashboard/server.py:275 | Every row once, in the strict order of the ids as texts. |
| Dashboard.WaitingRows | dashboard/server.py:277-312 | One row for each 100 waiting captures and a last one with the rest. |
| Dashboard.SettlementRows | dashboard/server.py:220-313 | What is returned: the sorted rows of the batches and the waiting rows, or the error over an id without a number. |
| DashboardAgreement.BoardFollows | dashboard/server.py:220-275 | Over any sound log each row shows the last event of its batch; taken and completed are exact. |
| DashboardAgreement.RowsAreBatches | dashboard/server.py:220-275 | For every run and every order in which the dashboard sees its events, the rows are the replayed batches: ids, transactions, status and amounts. |
| PublishedEvents.RowsTell | dashboard/server.py:243-271 | Over any run and order of delivery a row shows all of a processing batch as pending and nothing of another, and a root cause for exactly the failed ones. |
| PublishedEvents.RowsShown | dashboard/server.py:243-271 | For any log, in any order, a row shows some event of its batch field by field, its status in the event's own words. |
| DashboardAgreement.WaitingOrder | dashboard/server.py:316-327 | For any log, transactions wait in the order of their first captures, as in the batcher. |
| DashboardAgreement.WaitingAmount | dashboard/server.py:316-327 | A waiting transaction is shown with the amount of its last delivery. |
| DashboardAgreement.ShownAsQueuedIff | dashboard/server.py:316-327 | It is shown with the amount it is queued with if and only if its first and last delivery carry one amount. |
| DashboardAgreement.AmountsDrift | dashboard/server.py:280 | For any log a sum over waiting transactions is the queued total and the drift of its redelivered amounts. |
| DashboardAgreement.RedeliveryShifts | dashboard/server.py:326 | A log with one redelivery at which shown and queued amount differ. |
| DashboardAgreement.NamelessHidden | dashboard/server.py:323-325 | A capture without a transaction id is queued and not shown. |
| DashboardAgreement.NoDrift | dashboard/server.py:280 | Where no redelivery changed an amount nothing drifts. |
| DashboardAgreement.CapturesRun | services/settlement/main.py:62-70 | Any captures are the log of some run, so these logs are. |
| DashboardAgreement.NextOfCutTimes | common/settlement.py:86-119 | The batch that is cut after k others holds captures 100k to 100k+99 and the number k+1 further on. |
| DashboardAgreement.ReadyRowsAreNextBatches | dashboard/server.py:276-312 | For the listed queue: ready rows are the batches that repeated `create_batch` would cut, number for number, their amounts the totals plus the drift; the last row holds the rest. |
| DashboardAgreement.RowFollowsQueueIff | dashboard/server.py:276-312 | Next to the queue itself, a ready row names the batch that would be cut if and only if nothing nameless waits up to there. |
| DashboardAgreement.WaitingIsPending | dashboard/server.py:276-327 | Over any run the numbering continues the sequence without an error, and the waiting list is the replayed queue without a nameless capture: all of it if and only if none is final or one was batched. |
| DashboardAgreement.AnswerOfRun | dashboard/server.py:220-313 | Over any run and order of delivery, what `SettlementRows` returns is the replayed batches sorted by id, a ready row for each batch to be cut next, and exactly one collecting row. |
| DashboardAgreement.OverviewTotals | dashboard/server.py:548-580 | The overview's settled and at-risk sums are those of the batches. |
| DashboardAgreement.OverviewAccountsForCaptures | dashboard/server.py:548-580 | For a caught-up service, what was captured is what is shown as settled, at risk, on its way and waiting, less the drift and plus a nameless capture; in full if and only if the two are equal. |
| DashboardLimits.RowOrderIff | dashboard/server.py:275 | Ids m before n are in text order if and only if m is below the leading digits of n, cut to m's length. |
| DashboardLimits.RowsInSequenceIff | dashboard/server.py:275 | Sorting by id is sorting by sequence number if and only if there are fewer than 1000 batches. |
| DashboardLimits.RowIsFirstWinner | dashboard/server.py:237-274 | For any log of published events, in any order, a row is what the first result of its batch says, or else its latest news. |
| DashboardLimits.SameStatusIff | dashboard/server.py:237-242 | Dashboard and restarted service show the same status if and only if a batch's first and last results agree. |
| DashboardLimits.SecondResult | services/settlement/main.py:41-44 | Success followed by failure leaves the dashboard at succeeded and the service at failed. |
| Consensus.BeliefValidator.Validate | recovery/consensus/engine.py:7-20 | The verdict of one belief and the validator's new memory: duplicates, faults, quarantine at the second fault. |
| Consensus.WeightedConsensus.JudgeAll | recovery/consensus/engine.py:33-35 | The loop judges every belief with the memory its predecessors left. |
| Consensus.WeightedConsensus.Aggregate | recovery/consensus/engine.py:32-48 | The whole result, with the KeyError as an outcome and the memory updated in either case. |
| ConsensusReports.ReportTells | recovery/consensus/engine.py:46-48 | The reported counts are numbers of positions by verdict and add up to what was received; a position is a minority if and only if it participated for another action than the decision; a conflict is two participants that disagree. |
| ConsensusReports.ReasonsInOrder | recovery/consensus/engine.py:7-20 | The reason of a verdict is the first fault in the order of the checks, each if and only if none before it applies; the second fault quarantines. |
| ConsensusReports.OtherVerdicts | recovery/consensus/engine.py:7-20 | Quarantine comes before everything else, and a belief about another state is stale. |
| ConsensusReports.QuorumPrevails | recovery/consensus/engine.py:41-45 | A quorum is reached if and only if enough beliefs are valid, not all for nothing, and a voted action reaches the threshold; it is for the one that prevails by ratio, support and the order from the safest to the boldest. |
| Consensus.Decide | recovery/consensus/engine.py:41-45 | The branches in order: too few, unanimous for nothing, error, quorum, none. |
| ConsensusTheorems.KeyErrorIff | recovery/consensus/engine.py:44-45 | Aggregation ends in a KeyError if and only if enough beliefs are valid and one of them votes for a settlement action. |
| ConsensusTheorems.SettlementVoteRaises | recovery/consensus/engine.py:44-45 | One valid vote for a settlement retry as an input that does. |
| Consensus.BestVoted | recovery/consensus/engine.py:44-45 | The winner among the voted actions at the threshold by ratio, support and safety, in whatever order they were voted. |
| ArrivalOrder.RoundStatic | recovery/consensus/engine.py:7-20 | In an undisturbed round of one belief per agent every verdict is that of the memory before the round. |
| ArrivalOrder.OrderOfArrival | recovery/consensus/engine.py:32-48 | From any prior memory, any permutation of such a round gives the same decision, status, ratios, counts, standings with reasons, and memory. |
| ArrivalOrder.MemoryOrderIff | recovery/consensus/engine.py:12-20 | For one belief per agent the memory is the same for every permutation if and only if no two beliefs that would be taken share an id. |
| ArrivalOrder.OutcomeOrderIff | recovery/consensus/engine.py:32-48 | And the outcome, reasons included, if and only if no belief that would be taken shares its id with any other fitting one of a known, unquarantined agent. |
| ArrivalOrder.SharedIdBreaksOrder | recovery/consensus/engine.py:12 | An example of two beliefs under one id whose order decides the action. |
| ConsensusTheorems.RatiosBounded | recovery/consensus/engine.py:36-40 | All support ratios lie between 0 and 1 and sum to at most 1, as do any two, where no two agents have weights of opposite signs. |
| ConsensusTheorems.RatiosBoundedIff | recovery/consensus/engine.py:36-40 | For all beliefs they lie between 0 and 1 if and only if no two agents have weights of opposite signs. |
| ConsensusTheorems.OneQuorumIff | recovery/consensus/engine.py:44-45 | Two actions can both reach the threshold if and only if it is at most one half. |
| Gathering.GatherBeliefs | recovery/coordinator/service.py:78-105 | Collects the beliefs in completion order, skipping agents without one or with an exception, and aligns checkout votes. |
| Gathering.AlignCheckoutLinkVotes | recovery/coordinator/service.py:107-133 | On checkout, and only there, each vote is rewritten in place in the list. |
| Gathering.GatheredTells | recovery/coordinator/service.py:107-133 | Vote by vote, which recommendations turn into a payment link, and that only the intent agent's confidence is raised, to 0.75. |
| Gathering.CompletionOrderIrrelevant | recovery/coordinator/service.py:94-105 | However the threads of an undisturbed round finish, the outcome and the validator's memory are the same. |
| Gathering.CompletionOrderIff | recovery/coordinator/service.py:94-105 | The outcome does not depend on which thread finishes when if and only if the gathered round is undisturbed. |
| ValidatorRuns.QuarantinedIff | recovery/consensus/engine.py:16-20 | Over any rounds an agent is quarantined if and only if two of its fitting beliefs were faulty when they came. |
| ValidatorRuns.RepeatedIdsIff | recovery/consensus/engine.py:12-20 | One that sends well-formed beliefs under ids of its own is quarantined if and only if two of them repeated an id. |
| ValidatorRuns.StandInQuarantinedIff | recovery/coordinator/service.py:267 | The coordinator's stand-in for an agent, whose ids are state versions, is quarantined over transactions at one version if and only if this is its third. |
| Gathering.CheckoutLeavesNoRecover | recovery/coordinator/service.py:107-133 | After alignment RECOVER has no support, so the later merge has nothing to add. |
| Pipeline.DecidePolicy | recovery/policy/engine.py:10-52 | Allowed if and only if every guardrail holds; else the checks stop at the first that fails. |
| Pipeline.RecoveryPipeline.Run | recovery/coordinator/pipeline.py:17-54 | Aggregation, merge, guardrails, executor and outcome in one; what is executed and what is recorded. |
| PipelineTheorems.QuorumFacts | recovery/consensus/engine.py:36-48 | A reported quorum was voted for, reached the threshold and had enough valid beliefs. |
| PipelineTheorems.ActionsAreBacked | recovery/coordinator/pipeline.py:17-73 | On every route to an action: it, RECOVER or both together reached the threshold among enough valid beliefs (both together with weights of one sign, by weight where none is negative), and all guardrails hold of that very action. |
| PipelineTheorems.AllPassIff | recovery/policy/engine.py:10-52 | All guardrails hold if and only if a quorum at the threshold stands and the concrete action is authorised: the seven terminal statuses, attempts, amount, return and providers written out. |
| PipelineTheorems.RefusedFor | recovery/policy/engine.py:20-52 | The reason of a refusal is the first that applies, in the order from the kill switch to the provider. |
| PipelineActions.ExecutedIff | recovery/coordinator/pipeline.py:56-87 | An action is executed if and only if it is authorised and chosen: by the votes for it and for RECOVER together where the failure suggests it, or else by a quorum for it, or by one for RECOVER where the context leads to it. |
| PipelineActions.MergedReport | recovery/coordinator/pipeline.py:56-73 | After merging, the action that RECOVER was counted for is reported with both ratios and every other one with its own; the support is that of the decision. |
| PipelineActions.UnvotedActions | recovery/coordinator/pipeline.py:74-87 | An executed action for which no valid belief voted is the one action the context leads to: stage, failure code, intent and target provider decide which. |
| PipelineActions.AfterRecover | recovery/policy/engine.py:53-70 | After a quorum for RECOVER exactly the action the context leads to is executed, if it is authorised; without a suggestion that is the target provider, if there is one. |
| PipelineActions.FailedAuthorization | recovery/coordinator/pipeline.py:85-86 | A declined authorisation leads to a new payment. |
| PipelineTheorems.MergeKeepsQuorums | recovery/coordinator/pipeline.py:56-73 | Above one half and with weights of one sign, merging never overturns a third action's quorum, doing nothing by quorum or unanimity, or missing evidence. |
| MergeSigns.MergeKeepsIff | recovery/coordinator/pipeline.py:56-73 | Above one half, no quorum of a third action is overturned by any votes if and only if no two agents have weights of opposite signs. |
| PipelineTheorems.MergeOverturnsIff | recovery/coordinator/pipeline.py:56-73 | With weights of one sign, some quorum of a third action is overturned at a threshold if and only if it is at most one half. |
| StateStore.MemoryStateStore.UpsertCandidate | recovery/state/store.py:36-77 | The branches on finished, succeeding, repeated and new candidates. |
| StateStore.MemoryStateStore.StoreBeliefs | recovery/state/store.py:83-89 | Beliefs are stored with an existing state only. |
| StateStore.MemoryStateStore.ApplyRecoveryResult | recovery/state/store.py:91-117 | Status, attempts and amounts after a result. |
| StateStore.RedisStateStore.UpsertCandidate | recovery/state/store.py:137-186 | The same branches on Redis values and id sets, with the idempotency error. |
| StateStore.RedisStateStore.StoreBeliefs | recovery/state/store.py:192-204 | Beliefs are stored with an existing state only. |
| StateStore.RedisStateStore.ApplyRecoveryResult | recovery/state/store.py:206-238 | Status, attempts and amounts after a result. |
| StateStore.StoresSimulate | recovery/state/store.py:36-238 | For every operation sequence in which an event id belongs to one transaction, both stores give the same replies, states and versions, although only Redis records the ids of success events. |
| StateStore.StoresAgreeIff | recovery/state/store.py:36-238 | The stores reply alike to every sequence of operations if and only if the candidates never use one event id for two transactions. |
| StateStore.VersionCountsChanges | recovery/state/store.py:36-117 | After any operations, a state's version is the number of candidates that changed it, its last event is the last of them, and its net amount is recovered less cost. |
| StoredStories.StoriesTold | recovery/state/store.py:36-117 | After any operations a state tells its candidates: stage, status and failure code of the last one, identity, amount at risk (the first amount that is not zero) and history of the one that began it. |
| StoredStories.StoriesToldInRedis | recovery/state/store.py:137-238 | The same on Redis, where no event id is used for two transactions. |
| StateStore.FinishedStays | recovery/state/store.py:40-42 | Once a transaction is finished no later candidate changes its version, status, stage or history. |
| StateStore.SharedEventIdDiverges | recovery/state/store.py:53-54 | From empty stores, one id for two transactions: no state from the one store, a new state from the other. |
| StateStore.SharedEventIdStalls | recovery/state/store.py:53-54 | For a stored, unfinished second transaction: no change in the one store, the next version in the other. |
| Coordinator.RecoveryCoordinator.ReceiveCandidate | recovery/coordinator/service.py:59-76 | One candidate through either store, validator, pipeline and store again, with the errors of a missing state and of the aggregation. |
| ReceptionReports.ContextTells | recovery/coordinator/service.py:313-339 | The context the pipeline sees: the status the candidate has just left, the attempts so far, and never recovered already. |
| ReceptionReports.ReceptionReported | recovery/state/store.py:91-117 | On either store, every field of the state after a candidate for which the pipeline ran: recovered with the amount if and only if a first execution went through and was verified, and the cost of every execution that is not a repetition. |
| CoordinatorRuns.ReceiveKeeps | recovery/coordinator/service.py:59-76 | On either store one candidate adds at most one execution, for an event not recorded and a transaction neither finished nor terminal to the policy. |
| CoordinatorRuns.ExecutionsBounded | recovery/coordinator/service.py:59-76 | Over any deliveries, on either store: attempts equal executions and stay within the maximum, no execution repeats another, and each is justified when it is made. |
| CoordinatorRuns.EventsExecutedOnce | recovery/consumer/main.py:226-227 | On Redis too no event is executed twice, where no event id is used for two transactions. |
| CoordinatorRuns.ExecutesFromIff | recovery/state/store.py:40-42 | An execution can follow on a transaction stored with a given status if and only if it is none of the store's five; the policy's two further ones do not stop it. |
| Lifecycle.TransactionStateStore.ValidateAndApply | runner/mock_pipeline.py:55-103 | When an event is accepted, and the new state in either case, including what a rejected event has already bound. |
| Lifecycle.StateOfPassed | runner/mock_pipeline.py:55-103 | After any events, last event, successes and terminal flag are told by the accepted ones alone. |
| Lifecycle.FailedAttemptAbsorbs | runner/mock_pipeline.py:82-99 | After a failure no run of events of the same or an unknown attempt has any accepted event or changes last event, successes, terminal flag or attempt. |
| Lifecycle.RunCoherent | runner/mock_pipeline.py:94-103 | Over any events the success set stays closed under predecessors. |
| Lifecycle.SuccessesWereAccepted | runner/mock_pipeline.py:101-102 | A type is in the success set if and only if a success event of it was accepted. |
| Lifecycle.CaptureAfterAllSteps | runner/mock_pipeline.py:28-41 | Over any number of attempts, an accepted `capture_succeeded` comes after accepted successes of all seven steps before it. |
| Lifecycle.ChainAccepted | runner/mock_pipeline.py:94-103 | A chain of steps whose first one passes is accepted as a whole; the state it ends in. |
| Lifecycle.StatusesMatter | runner/mock_pipeline.py:101-103 | Allowing one more status breaks the capture guarantee if and only if it is not one of the three. |
| Followups.BuildScenarioEvents | runner/mock_pipeline.py:179-220 | Builds the events of a scenario with their attempt numbers; the guard accepts each, so no error is raised. |
| Followups.ScenarioAccepted | runner/mock_pipeline.py:106-167 | Every scenario, seed and random stage gives a run the guard accepts from the start. |
| RecoveryOutcomes.ScenarioRuns | runner/mock_pipeline.py:106-167 | The event types of every scenario, seed and random stage, one by one, and where it fails. |
| RecoveryOutcomes.ScenarioEnds | runner/mock_pipeline.py:179-220 | A scenario ends in an accepted capture if and only if it fails at no stage; the retry scenario alone has a second attempt, from its seventh event on. |
| Followups.RecoveryFollowupEvents | recovery/consumer/main.py:56-138 | The follow-up steps and the attempt number of each action. |
| RecoveryOutcomes.RecoveryEnds | recovery/consumer/main.py:41-113 | From a recoverable guard, a switch or retry ends in an accepted capture if and only if its roll is below 85 or 35, and otherwise in a failed payment; one payment is created, under the next attempt. |
| RecoveryOutcomes.LinkEnds | recovery/consumer/main.py:53-95 | A link leads to no event unless the open roll is below 55; behind the click the payment is captured if and only if the link's roll is below 8. |
| RecoveryOutcomes.AttemptText | recovery/consumer/main.py:71 | The text of attempt ids. |
| Followups.FailedRunsAreRecoverable | runner/mock_pipeline.py:81-103 | Any accepted run that ends in a failed payment, authorization or capture leaves the guard ready for a new attempt. |
| Followups.FollowupAcceptedIff | recovery/consumer/main.py:96-113 | For a run that a failure stopped, the follow-ups of a retry or switch are all accepted if and only if the checkout was completed and the attempt number is another. |
| Followups.FollowupAccepted | recovery/consumer/main.py:96-113 | When they fail as well, they leave the guard ready for the next recovery. |
| Followups.SuccessiveRecoveriesAccepted | recovery/consumer/main.py:56-138 | So is any sequence of recoveries of which only the last may succeed. |
| Followups.LinkAcceptedIff | recovery/consumer/main.py:78-95 | The follow-ups of a payment link all pass, in any state, if and only if the link is not opened and there are none. |
| Followups.AfterTheClick | recovery/consumer/main.py:78-95 | Only the click is lost: the payment events behind it are accepted exactly when those of a retry would be. |
| RootCauseAnalysis.RCAEngine.Observe | detection/rca/network.py:19-37 | Counts one observation at its provider and at three edges. |
| RootCauseAnalysis.RCAEngine.Explain | detection/rca/network.py:39-78 | The cause named for an event, with its confidence. |
| RootCauseAnalysis.TopProvider | detection/rca/network.py:54-56 | The loop finds the one provider that outranks all others, and the sum of failures. |
| RootCauseAnalysis.NamedIff | detection/rca/network.py:54-60 | The leading provider is named if and only if it failed twice or more and holds two ninths (one ninth from three failures on) of all failures. |
| RcaConfidence.CauseInNumbers | detection/rca/network.py:54-78 | The answer in numbers: base confidence from the share and up to three failures, at most 0.6 for an unknown cause, and what each edge adds, up to 0.99, for a named provider. |
| RcaConfidence.NoCause | detection/rca/network.py:43-53 | Without a provider that failed, or for an event that did not, the confidence is zero. |
| RcaConfidence.ConfidenceGap | detection/rca/network.py:54-78 | Asked right after the failure was observed, the confidence is above one half, at most 0.6 for an unknown cause and at least 0.95 for a named one. |
| RootCauseAnalysis.NamedAmongFour | detection/rca/network.py:54-60 | With at most four failing providers the leading one is named if and only if it failed at least twice. |
| RootCauseAnalysis.PeersHideEachOther | detection/rca/network.py:54-60 | Of five or more providers with two failures each none is named. |
| RootCauseAnalysis.CountsAreCounts | detection/rca/network.py:19-37 | Every count is the number of observations of that kind in the log. |
| RootCauseAnalysis.CountsIgnoreOrder | detection/rca/network.py:19-37 | Any order of the same observations gives the same counts, so the same causes. |
| CustomerIntent.CustomerIntentState.Update | detection/state/customer_intent.py:106-126 | A known id changes only the scores; else one more piece of evidence with its faded weight. |
| CustomerIntent.CustomerIntentState.Snapshot | detection/state/customer_intent.py:128-151 | The loop computes both decayed logits, and the scores and confidence from them. |
| CustomerIntent.HistoryConsistent | detection/state/customer_intent.py:106-126 | After every history evidence, counts per signal, seen ids and the evidence count agree, and no weight exceeds its base or has the other sign. |
| IntentSignals.EvidenceFollowsTable | detection/state/customer_intent.py:53-122 | After any history a new event appends one piece of evidence with the signal and weight of its case, divided by two and three for its first repetitions and zero after them. |
| IntentSignals.ScoresBounded | detection/state/customer_intent.py:128-151 | For any evidence scores and confidence lie between 0 and 1; six pieces earn an eighth of the confidence each, and the recent share the last quarter. |
| IntentSignals.ScoresOfOne | detection/state/customer_intent.py:128-143 | One piece of evidence fades with its age, which is never negative. |
| CustomerIntent.SignalWeight | detection/state/customer_intent.py:115-122 | One signal's evidence weighs exactly its base weight times 0, 1, 3/2 or 11/6, never more than 11/6 of it. |
| CustomerIntent.LogitBounded | detection/state/customer_intent.py:128-143 | For every history, time and decay the logits lie between -11/6 of the opposing and 11/6 of the supporting base weights, far from the sigmoid's clamp. |
| CustomerIntent.SignalsThatOccur | detection/state/customer_intent.py:53-78 | Two signals of the weight table come from no event. |
| Detection.DetectionConsumer.ProcessEvent | detection/consumer/main.py:96-172 | Validates, skips known ids, updates the accumulators and emits a detection for a failure; a timestamp that does not parse raises after the id is taken and the observation counted. |
| Detection.RedeliveryInvisible | detection/consumer/main.py:111-122 | After any log, state and detections are those of the log with only the first valid event of each id. |
| Detection.DetectionsAreFirstFailures | detection/consumer/main.py:153-172 | The detected events are, in order, exactly the failures with a timestamp among the first valid events. |
| DetectionTables.ValidIff | detection/consumer/main.py:60-89 | An event is valid if and only if its five ids are there and its stage, type, status and failure code are in a table of 17 types. |
| DetectionTables.DetectionTells | detection/consumer/main.py:121-172 | A detection is told by the first valid events up to it: id, average, anomaly below 0.45, the customer's evidence, and a cause whose confidence lies in one of two ranges. |
| DetectionTables.EvidenceOfLog | detection/state/customer_intent.py:53-122 | After any log a customer's k-th evidence follows the table for the k-th event, and without a flag counts against the customer if and only if the event is neither a success nor of the two starting types (nor a payment that succeeded), among the first three of its signal. |
| DetectionTables.SeenTells | detection/consumer/main.py:110-121 | What is kept of an id is the identity of the first valid event that came with it. |
| DetectionTables.CountsTell | detection/rca/network.py:19-37 | After any log the counts behind an explanation are numbers of first valid events: at a provider, failed there, and sharing a step. |
| Detection.FirstValidDistinct | detection/consumer/main.py:114-121 | No id is left twice, so no id is detected twice. |
| Detection.AccumulatorsAreFolds | detection/consumer/main.py:121-131 | Each accumulator is the plain fold over the first valid events of its key, with a timestamp but for the counts; the inner dedupe has nothing left to drop. |
| Detection.OrderOfDelivery | detection/consumer/main.py:121-122 | The same set of events, however often and in whatever order delivered, gives the same observation counts. |
| Detection.AnomalyFollowsTrend | detection/state/degradation.py:12-19 | Whatever came before, three events without success raise an anomaly and two successes end it. |
| DetectionTables.AverageMoves | detection/state/degradation.py:12-19 | Each event moves the average three tenths of the way to 1 or to 0; the first one sets it. |
| DetectionTables.ThreeFailures | detection/state/degradation.py:38-48 | After nothing but successes it takes exactly three events without one to raise an anomaly. |
| DetectionTables.KeysIff | detection/state/degradation.py:35-36 | Averages and evidence are kept apart exactly by their fields, where no separator is in the way. |

## Left out

- Kafka, Redis client, gRPC, HTTP, Splunk, the write-ahead log and key expiry: messages are ordered per key and may be repeated, Redis is a map and one id set per transaction.
- The wall clock, random ids and SHA-256 are parameters; the outcome digest and the detection digest are functions of their inputs, the success rolls of a transaction's word.
- Floating point: amounts and scores are reals without rounding; exponential decay and sigmoid are parameters, decay with values between 0 and 1.
- Letter case: statuses, stages and codes that the source lower-cases are modelled in one case.
- Events that lack fields the source indexes without a default, and the check for missing fields at ingestion: every modelled event has its fields.
- The order and repetition of ids within an event's `transaction_ids`: they are a set, as the service reads them.
- Objects held inside maps (batches, customers, recovery states) are values: replacing them is modelled, aliasing of the object a caller keeps is not.
- A batch size of 0 is in the model of single operations, but the run theorems ask for at least 1.
- Failing publications: an event that the service publishes is in the log.
- One settlement service at a time: two instances writing at once are not modelled.
- `SettlementService`, `SettlementEscalation` and the simulated clock in common/settlement.py; the payment orchestrator; the agents' own scoring; the logistic model and the query builders.
- The networkx graph, which repeats the edge counts; the evidence texts of an explanation; complaint and dashboard texts.
- The customers' median scores and the earlier snapshot that a failed checkout reports: a detection carries the intent record its scores come from.
- MergeKeepsQuorums: for weights of one sign and a threshold above one half; `MergeKeepsIff` and `MergeOverturnsIff` show that both are needed.
- RatiosBounded: for weights of one sign; `RatiosBoundedIff` shows that this is needed.
- CompletionOrderIrrelevant: for agents that do not answer in each other's names, which only a remote agent could do.
- OutcomeOrderIff: for votes that cannot end in the KeyError, whose outcome is the same whatever else happens.
- SuccessiveRecoveriesAccepted: for retries and switches; the click of a payment link is not accepted by the guard.
