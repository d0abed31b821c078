/** The versioned recovery state, in memory and in Redis. */
module StateStore {
  import opened Collections
  import opened Consensus
  import opened Pipeline

  datatype RecoveryStatus = CandidateReceived | Recovered | Completed

  datatype Identity = Identity(
    detectionId: string, traceId: string, paymentId: string, orderId: string,
    merchantId: string, customerId: string)

  /** Texts are lower case; an absent text is the empty string, an absent number zero. */
  datatype Candidate = Candidate(
    transactionId: string, eventId: string, eventType: string, stage: string, status: string,
    transactionStatus: string, failureCode: string, timestamp: string, amount: real,
    amountAtRisk: real, identity: Identity)

  datatype LifecycleRecord = LifecycleRecord(
    eventId: string, eventType: string, stage: string, status: string, failureCode: string, timestamp: string)

  datatype RecoveryState = RecoveryState(
    transactionId: string, version: int, status: RecoveryStatus, identity: Identity,
    updatedAt: string, attempts: int, lastEventId: string, beliefs: Option<seq<Belief>>,
    amountAtRisk: real, amountRecovered: real, recoveryCost: real, netRecovered: real,
    result: Option<PipelineResult>, stage: string, transactionStatus: string,
    failureCode: string, lifecycle: seq<LifecycleRecord>)

  /** The statuses after which the store takes no more candidates of a transaction. */
  const FINAL: set<string> := {"success", "succeeded", "captured", "settled", "recovered"}

  predicate Finished(s: RecoveryState) {
    s.transactionStatus in FINAL
  }

  function RecordOf(e: Candidate): LifecycleRecord {
    LifecycleRecord(e.eventId, e.eventType, e.stage, e.status, e.failureCode, e.timestamp)
  }

  /** The state a candidate starts, on top of what is known of its transaction. */
  function NewState(e: Candidate, existing: Option<RecoveryState>): RecoveryState {
    RecoveryState(
      e.transactionId, if existing.Some? then existing.value.version + 1 else 1, CandidateReceived, e.identity,
      e.timestamp, if existing.Some? then existing.value.attempts else 0, e.eventId, None,
      if e.amount != 0.0 then e.amount else e.amountAtRisk, 0.0, 0.0, 0.0, None, e.stage,
      if e.status != "" then e.status else e.transactionStatus, e.failureCode, [RecordOf(e)])
  }

  /** The state after the news that its transaction came through by itself. */
  function SucceededState(e: Candidate, s: RecoveryState): RecoveryState {
    s.(version := s.version + 1, status := Completed, updatedAt := e.timestamp, lastEventId := e.eventId,
       stage := e.stage, transactionStatus := e.status, failureCode := e.failureCode,
       lifecycle := s.lifecycle + [RecordOf(e)])
  }

  function AppliedState(s: RecoveryState, r: PipelineResult, assessedAt: string): RecoveryState {
    var recovered := if r.outcome.Some? then r.outcome.value.amountRecovered else 0.0;
    var cost := if r.action.Some? then r.action.value.recoveryCost else 0.0;
    s.(status := if r.outcome.Some? && r.outcome.value.recovered then Recovered else Completed,
       updatedAt := if assessedAt != "" then assessedAt else s.updatedAt,
       attempts := s.attempts + (if r.executed then 1 else 0),
       amountRecovered := recovered, recoveryCost := cost, netRecovered := recovered - cost,
       result := Some(r))
  }

  datatype Reply =
    | Upserted(state: Option<RecoveryState>, changed: bool)
    | IdempotencyError
    | Saved
    | Applied(state': RecoveryState)
    | NoState

  datatype Op =
    | Upsert(event: Candidate)
    | SaveBeliefs(transactionId: string, beliefs: seq<Belief>)
    | Apply(transactionId': string, result: PipelineResult, assessedAt: string)

  function Lookup(states: map<string, RecoveryState>, t: string): Option<RecoveryState> {
    if t in states then Some(states[t]) else None
  }

  // ---------- In memory ----------

  datatype MemoryStore = MemoryStore(states: map<string, RecoveryState>, eventIds: set<string>)

  function MemoryStep(m: MemoryStore, op: Op): (MemoryStore, Reply) {
    match op
    case Upsert(e) =>
      var existing := Lookup(m.states, e.transactionId);
      if existing.Some? && Finished(existing.value) then (m, Upserted(existing, false))
      else if existing.Some? && e.status in FINAL then
        var s := SucceededState(e, existing.value);
        (m.(states := m.states[e.transactionId := s]), Upserted(Some(s), true))
      else if e.eventId in m.eventIds then (m, Upserted(existing, false))
      else
        var s := NewState(e, existing);
        (MemoryStore(m.states[e.transactionId := s], m.eventIds + {e.eventId}), Upserted(Some(s), true))
    case SaveBeliefs(t, beliefs) =>
      if t in m.states then (m.(states := m.states[t := m.states[t].(beliefs := Some(beliefs))]), Saved) else (m, Saved)
    case Apply(t, r, at) =>
      if t !in m.states then (m, NoState)
      else
        var s := AppliedState(m.states[t], r, at);
        (m.(states := m.states[t := s]), Applied(s))
  }

  class MemoryStateStore {
    var states: map<string, RecoveryState>
    var eventIds: set<string>

    ghost function State(): MemoryStore
      reads this
    {
      MemoryStore(states, eventIds)
    }

    constructor ()
      ensures State() == MemoryStore(map[], {})
    {
      states, eventIds := map[], {};
    }

    method UpsertCandidate(e: Candidate) returns (state: Option<RecoveryState>, changed: bool)
      modifies this
      ensures (State(), Upserted(state, changed)) == MemoryStep(old(State()), Upsert(e))
    {
      var t := e.transactionId;
      var existing := Lookup(states, t);
      if existing.Some? && existing.value.transactionStatus in FINAL {
        return existing, false;
      }
      if existing.Some? && e.status in FINAL {
        var s := existing.value;
        s := s.(version := s.version + 1, status := Completed, updatedAt := e.timestamp, lastEventId := e.eventId);
        s := s.(stage := e.stage, transactionStatus := e.status, failureCode := e.failureCode);
        s := s.(lifecycle := s.lifecycle + [RecordOf(e)]);
        states := states[t := s];
        return Some(s), true;
      }
      if e.eventId in eventIds {
        return existing, false;
      }
      var s := NewState(e, existing);
      states := states[t := s];
      eventIds := eventIds + {e.eventId};
      return Some(s), true;
    }

    method StoreBeliefs(t: string, beliefs: seq<Belief>)
      modifies this
      ensures State() == MemoryStep(old(State()), SaveBeliefs(t, beliefs)).0
    {
      if t in states {
        states := states[t := states[t].(beliefs := Some(beliefs))];
      }
    }

    method ApplyRecoveryResult(t: string, r: PipelineResult, at: string) returns (updated: Option<RecoveryState>)
      modifies this
      ensures var (m, reply) := MemoryStep(old(State()), Apply(t, r, at));
              State() == m && reply == if updated.Some? then Applied(updated.value) else NoState
    {
      if t !in states {
        return None;
      }
      var s := AppliedState(states[t], r, at);
      states := states[t := s];
      updated := Some(s);
    }
  }

  // ---------- In Redis ----------

  /** One value per transaction, and one set of event ids per transaction. No expiry. */
  datatype RedisStore = RedisStore(states: map<string, RecoveryState>, ids: map<string, set<string>>)

  function MembersOf(ids: map<string, set<string>>, t: string): set<string> {
    if t in ids then ids[t] else {}
  }

  function RedisStep(r: RedisStore, op: Op): (RedisStore, Reply) {
    match op
    case Upsert(e) =>
      var t := e.transactionId;
      var existing := Lookup(r.states, t);
      var ids := r.ids[t := MembersOf(r.ids, t) + {e.eventId}];
      if existing.Some? && Finished(existing.value) then (r, Upserted(existing, false))
      else if existing.Some? && e.status in FINAL then
        var s := SucceededState(e, existing.value);
        (RedisStore(r.states[t := s], ids), Upserted(Some(s), true))
      else if e.eventId in MembersOf(r.ids, t) then
        (r, if existing == None then IdempotencyError else Upserted(existing, false))
      else
        var s := NewState(e, existing);
        (RedisStore(r.states[t := s], ids), Upserted(Some(s), true))
    case SaveBeliefs(t, beliefs) =>
      if t in r.states then (r.(states := r.states[t := r.states[t].(beliefs := Some(beliefs))]), Saved) else (r, Saved)
    case Apply(t, result, at) =>
      if t !in r.states then (r, NoState)
      else
        var s := AppliedState(r.states[t], result, at);
        (r.(states := r.states[t := s]), Applied(s))
  }

  class RedisStateStore {
    var values: map<string, RecoveryState>
    var members: map<string, set<string>>

    ghost function State(): RedisStore
      reads this
    {
      RedisStore(values, members)
    }

    constructor ()
      ensures State() == RedisStore(map[], map[])
    {
      values, members := map[], map[];
    }

    method UpsertCandidate(e: Candidate) returns (reply: Reply)
      modifies this
      ensures (State(), reply) == RedisStep(old(State()), Upsert(e))
    {
      var t := e.transactionId;
      var existing := Lookup(values, t);
      if existing.Some? && existing.value.transactionStatus in FINAL {
        return Upserted(existing, false);
      }
      if existing.Some? && e.status in FINAL {
        var s := SucceededState(e, existing.value);
        values := values[t := s];
        members := members[t := MembersOf(members, t) + {e.eventId}];
        return Upserted(Some(s), true);
      }
      if e.eventId in MembersOf(members, t) {
        return if existing == None then IdempotencyError else Upserted(existing, false);
      }
      var s := NewState(e, existing);
      values := values[t := s];
      members := members[t := MembersOf(members, t) + {e.eventId}];
      reply := Upserted(Some(s), true);
    }

    method StoreBeliefs(t: string, beliefs: seq<Belief>)
      modifies this
      ensures State() == RedisStep(old(State()), SaveBeliefs(t, beliefs)).0
    {
      if t in values {
        values := values[t := values[t].(beliefs := Some(beliefs))];
      }
    }

    method ApplyRecoveryResult(t: string, r: PipelineResult, at: string) returns (updated: Option<RecoveryState>)
      modifies this
      ensures var (m, reply) := RedisStep(old(State()), Apply(t, r, at));
              State() == m && reply == if updated.Some? then Applied(updated.value) else NoState
    {
      if t !in values {
        return None;
      }
      var s := AppliedState(values[t], r, at);
      values := values[t := s];
      updated := Some(s);
    }
  }

  // ---------- The two stores simulate each other ----------

  const EMPTY_STORE: MemoryStore := MemoryStore(map[], {})
  const EMPTY_REDIS: RedisStore := RedisStore(map[], map[])

  function MemoryRun(m: MemoryStore, ops: seq<Op>): (r: (MemoryStore, seq<Reply>))
    ensures |r.1| == |ops|
  {
    if |ops| == 0 then (m, [])
    else
      var (m1, replies) := MemoryRun(m, ops[..|ops| - 1]);
      var (m2, reply) := MemoryStep(m1, ops[|ops| - 1]);
      (m2, replies + [reply])
  }

  function RedisRun(r: RedisStore, ops: seq<Op>): (r': (RedisStore, seq<Reply>))
    ensures |r'.1| == |ops|
  {
    if |ops| == 0 then (r, [])
    else
      var (r1, replies) := RedisRun(r, ops[..|ops| - 1]);
      var (r2, reply) := RedisStep(r1, ops[|ops| - 1]);
      (r2, replies + [reply])
  }

  /** No event id is used for two transactions. */
  ghost predicate Owned(owner: string -> string, ops: seq<Op>) {
    forall i :: 0 <= i < |ops| && ops[i].Upsert? ==> owner(ops[i].event.eventId) == ops[i].event.transactionId
  }

  /** Only of finished transactions may the two stores remember different event ids. */
  ghost predicate Alike(owner: string -> string, m: MemoryStore, r: RedisStore) {
    && m.states == r.states
    && (forall t :: t !in m.states ==> MembersOf(r.ids, t) == {})
    && (forall e :: e in m.eventIds ==> owner(e) in m.states)
    && (forall e :: owner(e) in m.states && !Finished(m.states[owner(e)]) ==>
                      (e in m.eventIds <==> e in MembersOf(r.ids, owner(e))))
  }

  lemma StepsAlike(owner: string -> string, m: MemoryStore, r: RedisStore, op: Op)
    requires Alike(owner, m, r) && (op.Upsert? ==> owner(op.event.eventId) == op.event.transactionId)
    ensures Alike(owner, MemoryStep(m, op).0, RedisStep(r, op).0)
    ensures MemoryStep(m, op).1 == RedisStep(r, op).1
  {
    hide SucceededState, RecordOf;
    var m', r' := MemoryStep(m, op).0, RedisStep(r, op).0;
    match op {
      case Upsert(e) =>
        if e.transactionId in m.states {
          SucceededIsFinished(e, m.states[e.transactionId]);
        }
        assert m'.states == r'.states;
        forall x | owner(x) in m'.states && !Finished(m'.states[owner(x)])
          ensures x in m'.eventIds <==> x in MembersOf(r'.ids, owner(x))
        {
          if owner(x) != e.transactionId {
            assert owner(x) in m.states && m'.states[owner(x)] == m.states[owner(x)];
          }
        }
      case SaveBeliefs(t, beliefs) =>
      case Apply(t, result, at) =>
    }
  }

  lemma SucceededIsFinished(e: Candidate, s: RecoveryState)
    ensures SucceededState(e, s).transactionStatus == e.status
  {
  }

  /**
   Starting empty, the two stores answer every sequence of operations alike, with the same
   states, versions and changed flags, as long as no event id is used for two transactions.
   */
  lemma {:induction false} StoresSimulate(owner: string -> string, ops: seq<Op>)
    requires Owned(owner, ops)
    ensures var (m, a) := MemoryRun(EMPTY_STORE, ops);
            var (r, b) := RedisRun(EMPTY_REDIS, ops);
            a == b && m.states == r.states && Alike(owner, m, r)
  {
    hide MemoryStep, RedisStep, Alike;
    if |ops| == 0 {
      EmptyAlike(owner);
    } else {
      StoresSimulate(owner, ops[..|ops| - 1]);
      StepsAlike(owner, MemoryRun(EMPTY_STORE, ops[..|ops| - 1]).0,
                 RedisRun(EMPTY_REDIS, ops[..|ops| - 1]).0, ops[|ops| - 1]);
      AlikeStates(owner, MemoryRun(EMPTY_STORE, ops).0, RedisRun(EMPTY_REDIS, ops).0);
    }
  }

  lemma AlikeStates(owner: string -> string, m: MemoryStore, r: RedisStore)
    requires Alike(owner, m, r)
    ensures m.states == r.states
  {
  }

  lemma EmptyAlike(owner: string -> string)
    ensures Alike(owner, EMPTY_STORE, EMPTY_REDIS)
  {
  }

  // ---------- When they agree, exactly ----------

  /** Every candidate of the operations uses an event id for a transaction as `uses` allows. */
  ghost predicate Within(uses: (string, string) -> bool, ops: seq<Op>) {
    forall i :: 0 <= i < |ops| && ops[i].Upsert? ==> uses(ops[i].event.eventId, ops[i].event.transactionId)
  }

  ghost predicate Functional(uses: (string, string) -> bool) {
    forall id, t, u :: uses(id, t) && uses(id, u) ==> t == u
  }

  ghost function OwnerIn(uses: (string, string) -> bool, id: string): string {
    if t :| uses(id, t) then t else ""
  }

  ghost predicate SameReplies(ops: seq<Op>) {
    MemoryRun(EMPTY_STORE, ops).1 == RedisRun(EMPTY_REDIS, ops).1
  }

  /** A candidate of a transaction, with nothing else to say. */
  function Bare(id: string, t: string): Candidate {
    Candidate(t, id, "", "", "", "", "", "", 0.0, 0.0, Identity("", "", "", "", "", ""))
  }

  lemma RunSnoc(m: MemoryStore, r: RedisStore, ops: seq<Op>, x: Op)
    ensures var (m', reply) := MemoryStep(MemoryRun(m, ops).0, x);
            MemoryRun(m, ops + [x]) == (m', MemoryRun(m, ops).1 + [reply])
    ensures var (r', reply) := RedisStep(RedisRun(r, ops).0, x);
            RedisRun(r, ops + [x]) == (r', RedisRun(r, ops).1 + [reply])
  {
    hide MemoryStep, RedisStep;
    assert (ops + [x])[..|ops|] == ops;
  }

  lemma TwoSteps(x: Op, y: Op)
    ensures var m := MemoryStep(EMPTY_STORE, x);
            var n := MemoryStep(m.0, y);
            MemoryRun(EMPTY_STORE, [x, y]) == (n.0, [m.1, n.1])
    ensures var r := RedisStep(EMPTY_REDIS, x);
            var s := RedisStep(r.0, y);
            RedisRun(EMPTY_REDIS, [x, y]) == (s.0, [r.1, s.1])
  {
    hide MemoryStep, RedisStep;
    RunSnoc(EMPTY_STORE, EMPTY_REDIS, [], x);
    RunSnoc(EMPTY_STORE, EMPTY_REDIS, [x], y);
    assert [] + [x] == [x] && [x] + [y] == [x, y];
    assert MemoryRun(EMPTY_STORE, []) == (EMPTY_STORE, []) && RedisRun(EMPTY_REDIS, []) == (EMPTY_REDIS, []);
    var m, r := MemoryStep(EMPTY_STORE, x), RedisStep(EMPTY_REDIS, x);
    assert [] + [m.1] == [m.1] && [] + [r.1] == [r.1];
    assert [m.1] + [MemoryStep(m.0, y).1] == [m.1, MemoryStep(m.0, y).1];
    assert [r.1] + [RedisStep(r.0, y).1] == [r.1, RedisStep(r.0, y).1];
  }

  /**
   One event id for two transactions, from empty stores: memory takes the second for a
   redelivery and has no state to return, and Redis starts one.
   */
  lemma SharedEventIdDiverges(e: Candidate, f: Candidate)
    requires e.eventId == f.eventId && e.transactionId != f.transactionId
    ensures MemoryRun(EMPTY_STORE, [Upsert(e), Upsert(f)]).1[1] == Upserted(None, false)
    ensures RedisRun(EMPTY_REDIS, [Upsert(e), Upsert(f)]).1[1] == Upserted(Some(NewState(f, None)), true)
    ensures !SameReplies([Upsert(e), Upsert(f)])
  {
    hide NewState;
    TwoSteps(Upsert(e), Upsert(f));
  }

  /**
   One event id for two transactions of which the second is already stored and not finished:
   memory answers that nothing changed, and Redis goes to the next version.
   */
  lemma SharedEventIdStalls(e: Candidate, g: Candidate, f: Candidate)
    requires e.eventId == f.eventId && e.eventId != g.eventId
    requires g.transactionId == f.transactionId && e.transactionId != f.transactionId
    requires f.status !in FINAL && !Finished(NewState(g, None))
    ensures var known, ops := NewState(g, None), [Upsert(e), Upsert(g), Upsert(f)];
            && MemoryRun(EMPTY_STORE, ops).1[2] == Upserted(Some(known), false)
            && RedisRun(EMPTY_REDIS, ops).1[2] == Upserted(Some(NewState(f, Some(known))), true)
            && NewState(f, Some(known)).version == 2
  {
    hide Finished;
    TwoSteps(Upsert(e), Upsert(g));
    RunSnoc(EMPTY_STORE, EMPTY_REDIS, [Upsert(e), Upsert(g)], Upsert(f));
    assert [Upsert(e), Upsert(g)] + [Upsert(f)] == [Upsert(e), Upsert(g), Upsert(f)];
  }

  /**
   The two stores answer every sequence of operations alike if and only if the candidates
   never use one event id for two transactions.
   */
  lemma StoresAgreeIff(uses: (string, string) -> bool)
    ensures Functional(uses) <==> forall ops :: Within(uses, ops) ==> SameReplies(ops)
  {
    hide MemoryRun, RedisRun, Alike;
    if Functional(uses) {
      var owner := id => OwnerIn(uses, id);
      forall ops | Within(uses, ops)
        ensures SameReplies(ops)
      {
        StoresSimulate(owner, ops);
      }
    }
    if !Functional(uses) {
      var id, t, u :| uses(id, t) && uses(id, u) && t != u;
      SharedEventIdDiverges(Bare(id, t), Bare(id, u));
      assert Within(uses, [Upsert(Bare(id, t)), Upsert(Bare(id, u))]);
    }
  }

  // ---------- Versions over whole runs ----------

  predicate Changes(t: string, op: Op, reply: Reply) {
    op.Upsert? && op.event.transactionId == t && reply.Upserted? && reply.changed
  }

  /** The event ids of the candidates that changed a transaction's state, in order. */
  function ChangesTo(t: string, ops: seq<Op>, replies: seq<Reply>): seq<string>
    requires |ops| == |replies|
  {
    if |ops| == 0 then []
    else
      var n := |ops| - 1;
      ChangesTo(t, ops[..n], replies[..n]) + (if Changes(t, ops[n], replies[n]) then [ops[n].event.eventId] else [])
  }

  /** What a store says of a transaction that `changed` lists the changes of. */
  ghost predicate Tells(m: MemoryStore, t: string, changed: seq<string>) {
    && (t in m.states <==> |changed| > 0)
    && (t in m.states ==>
          var s := m.states[t];
          && s.transactionId == t && s.version == |changed| && s.lastEventId == changed[|changed| - 1]
          && s.netRecovered == s.amountRecovered - s.recoveryCost)
  }

  lemma StepTells(m: MemoryStore, t: string, changed: seq<string>, op: Op)
    requires Tells(m, t, changed)
    ensures var (m', reply) := MemoryStep(m, op);
            Tells(m', t, changed + (if Changes(t, op, reply) then [op.event.eventId] else []))
  {
    hide RecordOf;
  }

  /**
   After any operations the version of a state is the number of candidates that changed it,
   its last event is the last of those, and its net amount is what was recovered less the cost.
   */
  lemma {:induction false} VersionCountsChanges(ops: seq<Op>, t: string)
    ensures var (m, replies) := MemoryRun(EMPTY_STORE, ops); Tells(m, t, ChangesTo(t, ops, replies))
  {
    hide MemoryStep, Tells, Changes;
    if |ops| == 0 {
      NothingTold(t);
    } else {
      var n := |ops| - 1;
      VersionCountsChanges(ops[..n], t);
      var (m, replies) := MemoryRun(EMPTY_STORE, ops[..n]);
      StepTells(m, t, ChangesTo(t, ops[..n], replies), ops[n]);
      assert MemoryRun(EMPTY_STORE, ops).1[..n] == replies;
    }
  }

  lemma NothingTold(t: string)
    ensures Tells(EMPTY_STORE, t, [])
  {
  }

  /** What a later candidate could change, of a state that is finished. */
  predicate SameStory(a: RecoveryState, b: RecoveryState) {
    && a.version == b.version && a.lastEventId == b.lastEventId && a.transactionStatus == b.transactionStatus
    && a.stage == b.stage && a.failureCode == b.failureCode && a.lifecycle == b.lifecycle && a.identity == b.identity
    && a.amountAtRisk == b.amountAtRisk
  }

  /** Once a transaction is finished no candidate changes it, whatever comes. */
  lemma {:induction false} FinishedStays(m: MemoryStore, ops: seq<Op>, t: string)
    requires t in m.states && Finished(m.states[t])
    ensures var m' := MemoryRun(m, ops).0;
            t in m'.states && Finished(m'.states[t]) && SameStory(m.states[t], m'.states[t])
  {
    hide RecordOf;
    if |ops| == 0 {
    } else {
      FinishedStays(m, ops[..|ops| - 1], t);
    }
  }
}
