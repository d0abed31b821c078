/** Candidates through the whole recovery service, redelivered in any way, on either store. */
module Coordinator {
  import opened Collections
  import opened Consensus
  import opened Pipeline
  import opened StateStore

  // ---------- One store or the other ----------

  datatype Store = InMemory(memory: MemoryStore) | InRedis(redis: RedisStore)

  function StatesOf(s: Store): map<string, RecoveryState> {
    match s
    case InMemory(m) => m.states
    case InRedis(r) => r.states
  }

  function StoreStep(s: Store, op: Op): (r: (Store, Reply))
    ensures r.0.InMemory? == s.InMemory?
  {
    match s
    case InMemory(m) => var (m', reply) := MemoryStep(m, op); (InMemory(m'), reply)
    case InRedis(r) => var (r', reply) := RedisStep(r, op); (InRedis(r'), reply)
  }

  /** Whether a store remembers an event: memory by its id alone, Redis by transaction and id. */
  predicate Recorded(s: Store, t: string, id: string) {
    match s
    case InMemory(m) => id in m.eventIds
    case InRedis(r) => id in MembersOf(r.ids, t)
  }

  const NEW_STORES: set<Store> := {InMemory(EMPTY_STORE), InRedis(EMPTY_REDIS)}

  datatype Backend = MemoryBackend(memory: MemoryStateStore) | RedisBackend(redis: RedisStateStore)

  ghost function Objects(b: Backend): set<object> {
    match b
    case MemoryBackend(m) => {m}
    case RedisBackend(r) => {r}
  }

  ghost function ContentOf(b: Backend): Store
    reads Objects(b)
  {
    match b
    case MemoryBackend(m) => InMemory(m.State())
    case RedisBackend(r) => InRedis(r.State())
  }

  method UpsertIn(b: Backend, e: Candidate) returns (reply: Reply)
    modifies Objects(b)
    ensures (ContentOf(b), reply) == StoreStep(old(ContentOf(b)), Upsert(e))
  {
    hide MemoryStep, RedisStep;
    match b {
      case MemoryBackend(m) =>
        var state, changed := m.UpsertCandidate(e);
        reply := Upserted(state, changed);
      case RedisBackend(r) => reply := r.UpsertCandidate(e);
    }
  }

  method StoreBeliefsIn(b: Backend, t: string, beliefs: seq<Belief>)
    modifies Objects(b)
    ensures ContentOf(b) == StoreStep(old(ContentOf(b)), SaveBeliefs(t, beliefs)).0
  {
    hide MemoryStep, RedisStep;
    match b {
      case MemoryBackend(m) => m.StoreBeliefs(t, beliefs);
      case RedisBackend(r) => r.StoreBeliefs(t, beliefs);
    }
  }

  method ApplyIn(b: Backend, t: string, r: PipelineResult, at: string)
    modifies Objects(b)
    ensures ContentOf(b) == StoreStep(old(ContentOf(b)), Apply(t, r, at)).0
  {
    hide MemoryStep, RedisStep;
    match b {
      case MemoryBackend(m) => var _ := m.ApplyRecoveryResult(t, r, at);
      case RedisBackend(s) => var _ := s.ApplyRecoveryResult(t, r, at);
    }
  }

  // ---------- One candidate ----------

  /** An execution, by the transaction it was for and the event that asked for it. */
  datatype Executed = Executed(transactionId: string, eventId: string)

  datatype Service = Service(store: Store, memory: Memory, executions: seq<Executed>)

  /** What comes with one delivery of a candidate: the agents' beliefs and what the event says. */
  datatype Delivery = Delivery(event: Candidate, beliefs: seq<Belief>, said: Context, assessedAt: string)

  /** How a call ends: without a state to go on from, in the KeyError of the aggregation, or regularly. */
  datatype Reception = StoreFailed | AggregationFailed | Received(result: Option<PipelineResult>)

  /** The context the pipeline sees: what the event says, and what the store knows. */
  function ContextOf(s: RecoveryState, d: Delivery): Context {
    var status := if s.transactionStatus != "" then s.transactionStatus else d.event.status;
    d.said.(transactionStatus := status, recoveryAttempts := s.attempts,
            alreadySuccessful := status in TERMINAL_STATUSES,
            alreadyRecovered := s.status == StateStore.Recovered || s.status == Completed)
  }

  /** The store has a state to work with. The log write before anything else needs one. */
  predicate Stored(reply: Reply) {
    reply.Upserted? && reply.state.Some?
  }

  predicate TakenOn(reply: Reply, e: Candidate) {
    Stored(reply) && reply.changed && e.status !in FINAL
  }

  predicate Assessed(reply: Reply, e: Candidate) {
    TakenOn(reply, e) && (e.stage != "" || e.failureCode != "")
  }

  /** One call of `receive_candidate`. */
  ghost predicate Receives(cfg: RecoveryConfig, before: Service, d: Delivery, outcome: Reception, after: Service) {
    var e, t := d.event, d.event.transactionId;
    var (upserted, reply) := StoreStep(before.store, Upsert(e));
    if !TakenOn(reply, e) then
      outcome == (if Stored(reply) then Received(None) else StoreFailed) && after == before.(store := upserted)
    else
      var saved := StoreStep(upserted, SaveBeliefs(t, d.beliefs)).0;
      if !Assessed(reply, e) then
        outcome == Received(None) && after == before.(store := saved)
      else
        Assesses(cfg, before, d, reply.state.value, saved, outcome, after)
  }

  /** The part of it that runs the pipeline, on a state the store has just given. */
  ghost predicate Assesses(cfg: RecoveryConfig, before: Service, d: Delivery, s: RecoveryState, saved: Store,
                           outcome: Reception, after: Service) {
    var t := d.event.transactionId;
    var c := Aggregated(cfg, before.memory, d.beliefs, t, s.version);
    && after.memory == MemoryAfter(cfg, before.memory, d.beliefs, t, s.version)
    && (c.None? ==> outcome == AggregationFailed && after.store == saved && after.executions == before.executions)
    && (c.Some? ==>
          && outcome.Received? && outcome.result.Some?
          && var p := outcome.result.value;
             && Outlines(cfg, c.value, ContextOf(s, d), t, s.version, p)
             && after.store == StoreStep(saved, Apply(t, p, d.assessedAt)).0
             && after.executions == before.executions + if p.executed then [Executed(t, d.event.eventId)] else [])
  }

  class RecoveryCoordinator {
    const cfg: RecoveryConfig
    const store: Backend
    const pipeline: RecoveryPipeline
    ghost var executions: seq<Executed>

    ghost predicate Valid()
      reads this, pipeline
    {
      pipeline.cfg == cfg && pipeline.Valid()
    }

    ghost function State(): Service
      reads this, Objects(store), pipeline, pipeline.consensus.validator
    {
      Service(ContentOf(store), pipeline.consensus.validator.State(), executions)
    }

    constructor (cfg: RecoveryConfig, store: Backend)
      ensures Valid() && this.store == store && this.cfg == cfg
      ensures State() == Service(ContentOf(store), Memory({}, map[], {}), [])
      ensures fresh(pipeline) && fresh(pipeline.consensus) && fresh(pipeline.consensus.validator)
    {
      this.cfg, this.store := cfg, store;
      pipeline := new RecoveryPipeline(cfg);
      executions := [];
    }

    method ReceiveCandidate(d: Delivery, actionId: string) returns (outcome: Reception)
      requires Valid()
      modifies this`executions, Objects(store), pipeline`executed, pipeline.consensus.validator
      ensures Valid() && Receives(cfg, old(State()), d, outcome, State())
    {
      hide StoreStep, Aggregated, MemoryAfter, Outlines, ContextOf, ContentOf;
      var e, t := d.event, d.event.transactionId;
      var reply := UpsertIn(store, e);
      if !reply.Upserted? || reply.state.None? {
        return StoreFailed;
      }
      if e.status in FINAL || !reply.changed {
        return Received(None);
      }
      StoreBeliefsIn(store, t, d.beliefs);
      if e.stage == "" && e.failureCode == "" {
        return Received(None);
      }
      var s := reply.state.value;
      var result := pipeline.Run(t, s.version, d.beliefs, ContextOf(s, d), actionId);
      if result.None? {
        return AggregationFailed;
      }
      ApplyIn(store, t, result.value, d.assessedAt);
      if result.value.executed {
        executions := executions + [Executed(t, e.eventId)];
      }
      outcome := Received(result);
    }
  }
}
