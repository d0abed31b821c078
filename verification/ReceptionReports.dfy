/** What one candidate leaves in the store, from the event, the store before it and the executor's answer. */
module ReceptionReports {
  import opened Collections
  import opened Consensus
  import opened Pipeline
  import opened PipelineTheorems
  import opened StateStore
  import opened Coordinator
  import opened CoordinatorRuns

  /** The transaction's status as the candidate leaves it. */
  function StatusAfter(e: Candidate): string {
    if e.status != "" then e.status else e.transactionStatus
  }

  /** The stored version before a candidate; 0 of a transaction that is not stored. */
  function VersionOf(s: Store, t: string): int {
    if t in StatesOf(s) then StatesOf(s)[t].version else 0
  }

  /**
   A candidate is taken on under the next version, with the attempts so far, and the pipeline sees
   the status it has just left; a state just begun never counts as recovered already.
   */
  lemma ContextTells(s: Store, d: Delivery)
    requires TakenOn(StoreStep(s, Upsert(d.event)).1, d.event)
    ensures var known, e := StoreStep(s, Upsert(d.event)).1.state.value, d.event;
            var ctx := ContextOf(known, d);
            && known.version == VersionOf(s, e.transactionId) + 1
            && ctx.transactionStatus == StatusAfter(e)
            && ctx.recoveryAttempts == AttemptsOf(s, e.transactionId)
            && !ctx.alreadyRecovered
            && (ctx.alreadySuccessful <==>
                StatusAfter(e) in {"success", "succeeded", "captured", "settled", "recovered",
                                   "captured_success", "settled_success"})
            && ctx == d.said.(transactionStatus := ctx.transactionStatus, recoveryAttempts := ctx.recoveryAttempts,
                              alreadySuccessful := ctx.alreadySuccessful, alreadyRecovered := ctx.alreadyRecovered)
  {
    hide RecordOf;
    match s {
      case InMemory(m) =>
      case InRedis(r) =>
    }
  }

  /** An execution that went through, and one that repeats an earlier one, as the executor reports it. */
  predicate WentThrough(p: PipelineResult) {
    p.executed && p.action.Some? && p.action.value.execution == SucceededExecution
  }

  predicate Repeated(p: PipelineResult) {
    p.executed && p.action.Some? && p.action.value.execution == DuplicateExecution
  }

  /** What the store says of a candidate's transaction after the pipeline has run for it. */
  ghost predicate Reported(cfg: RecoveryConfig, before: Store, d: Delivery, p: PipelineResult, s: RecoveryState) {
    var t := d.event.transactionId;
    var recovered := WentThrough(p) && d.said.syntheticVerified;
    && s.transactionId == t && s.version == VersionOf(before, t) + 1 && s.lastEventId == d.event.eventId
    && s.attempts == AttemptsOf(before, t) + (if p.executed then 1 else 0)
    && s.status == (if recovered then StateStore.Recovered else Completed)
    && s.amountRecovered == (if recovered then d.said.amount else 0.0)
    && s.recoveryCost == (if p.executed && !Repeated(p) then cfg.recoveryCost else 0.0)
    && s.netRecovered == s.amountRecovered - s.recoveryCost
    && s.updatedAt == (if d.assessedAt != "" then d.assessedAt else d.event.timestamp)
    && s.beliefs == Some(d.beliefs) && s.result == Some(p)
    && s.transactionStatus == StatusAfter(d.event) && s.stage == d.event.stage
    && s.failureCode == d.event.failureCode
  }

  lemma UpsertReported(s: Store, e: Candidate)
    requires TakenOn(StoreStep(s, Upsert(e)).1, e)
    ensures var (s', reply) := StoreStep(s, Upsert(e));
            var known := reply.state.value;
            && e.transactionId in StatesOf(s') && StatesOf(s')[e.transactionId] == known
            && known.transactionId == e.transactionId && known.version == VersionOf(s, e.transactionId) + 1
            && known.lastEventId == e.eventId && known.attempts == AttemptsOf(s, e.transactionId)
            && known.updatedAt == e.timestamp && known.transactionStatus == StatusAfter(e)
            && known.stage == e.stage && known.failureCode == e.failureCode
  {
    hide RecordOf;
    match s {
      case InMemory(m) =>
      case InRedis(r) =>
    }
  }

  lemma SaveReported(s: Store, t: string, beliefs: seq<Belief>)
    requires t in StatesOf(s)
    ensures var s' := StoreStep(s, SaveBeliefs(t, beliefs)).0;
            && t in StatesOf(s') && StatesOf(s')[t] == StatesOf(s)[t].(beliefs := Some(beliefs))
            && forall u :: u != t ==> (u in StatesOf(s') <==> u in StatesOf(s))
                                      && (u in StatesOf(s) ==> StatesOf(s')[u] == StatesOf(s)[u])
  {
  }

  lemma ApplyReported(s: Store, t: string, p: PipelineResult, at: string)
    requires t in StatesOf(s)
    ensures var s' := StoreStep(s, Apply(t, p, at)).0;
            && t in StatesOf(s') && StatesOf(s')[t] == AppliedState(StatesOf(s)[t], p, at)
            && forall u :: u != t ==> (u in StatesOf(s') <==> u in StatesOf(s))
                                      && (u in StatesOf(s) ==> StatesOf(s')[u] == StatesOf(s)[u])
  {
  }

  lemma ResultReported(cfg: RecoveryConfig, c: ConsensusResult, ctx: Context, tx: string, version: int,
                       p: PipelineResult, s: RecoveryState, at: string)
    requires Outlines(cfg, c, ctx, tx, version, p)
    ensures var s', recovered := AppliedState(s, p, at), WentThrough(p) && ctx.syntheticVerified;
            && s'.attempts == s.attempts + (if p.executed then 1 else 0)
            && s'.status == (if recovered then StateStore.Recovered else Completed)
            && s'.amountRecovered == (if recovered then ctx.amount else 0.0)
            && s'.recoveryCost == (if p.executed && !Repeated(p) then cfg.recoveryCost else 0.0)
            && s'.netRecovered == s'.amountRecovered - s'.recoveryCost
            && s'.updatedAt == (if at != "" then at else s.updatedAt) && s'.result == Some(p)
            && s' == s.(attempts := s'.attempts, status := s'.status, amountRecovered := s'.amountRecovered,
                        recoveryCost := s'.recoveryCost, netRecovered := s'.netRecovered,
                        updatedAt := s'.updatedAt, result := s'.result)
  {
    hide Resolved, ConcreteAction, AllPass;
  }

  /** On either store: what is there after a candidate for which the pipeline ran, field by field. */
  lemma ReceptionReported(cfg: RecoveryConfig, before: Service, d: Delivery, p: PipelineResult, after: Service)
    requires Receives(cfg, before, d, Received(Some(p)), after)
    ensures var t := d.event.transactionId;
            t in StatesOf(after.store) && Reported(cfg, before.store, d, p, StatesOf(after.store)[t])
  {
    hide StoreStep, Aggregated, MemoryAfter, ContextOf, Outlines, AppliedState, WentThrough, Repeated;
    var e, t := d.event, d.event.transactionId;
    var (upserted, reply) := StoreStep(before.store, Upsert(e));
    var saved := StoreStep(upserted, SaveBeliefs(t, d.beliefs)).0;
    var known := reply.state.value;
    UpsertReported(before.store, e);
    ContextTells(before.store, d);
    SaveReported(upserted, t, d.beliefs);
    ApplyReported(saved, t, p, d.assessedAt);
    var c := Aggregated(cfg, before.memory, d.beliefs, t, known.version).value;
    ResultReported(cfg, c, ContextOf(known, d), t, known.version, p, StatesOf(saved)[t], d.assessedAt);
  }
}
