/** What the recovery service guarantees over whole runs of candidates, on either store. */
module CoordinatorRuns {
  import opened Collections
  import opened Consensus
  import opened ArrivalOrder
  import opened Pipeline
  import opened StateStore
  import opened Coordinator

  function NewService(store: Store): Service {
    Service(store, Memory({}, map[], {}), [])
  }

  ghost predicate Run(cfg: RecoveryConfig, states: seq<Service>, deliveries: seq<Delivery>, outcomes: seq<Reception>) {
    && |states| == |deliveries| + 1 == |outcomes| + 1
    && states[0].store in NEW_STORES && states[0] == NewService(states[0].store)
    && forall i :: 0 <= i < |deliveries| ==> Receives(cfg, states[i], deliveries[i], outcomes[i], states[i + 1])
  }

  function CountFor(executions: seq<Executed>, t: string): nat {
    if |executions| == 0 then 0
    else
      CountFor(executions[..|executions| - 1], t)
      + if executions[|executions| - 1].transactionId == t then 1 else 0
  }

  function AttemptsOf(s: Store, t: string): int {
    if t in StatesOf(s) then StatesOf(s)[t].attempts else 0
  }

  /** Executions that a store tells apart: memory by event, Redis by transaction and event. */
  predicate Apart(s: Store, x: Executed, y: Executed) {
    if s.InMemory? then x.eventId != y.eventId else x != y
  }

  /** Attempts count executions, within the limit, and no execution repeats another. */
  ghost predicate Sound(cfg: RecoveryConfig, s: Service) {
    && (forall t :: AttemptsOf(s.store, t) == CountFor(s.executions, t))
    && (forall t :: CountFor(s.executions, t) > 0 ==> CountFor(s.executions, t) <= cfg.maxAttempts)
    && (forall i, j :: 0 <= i < j < |s.executions| ==> Apart(s.store, s.executions[i], s.executions[j]))
    && (forall x :: x in s.executions ==> Recorded(s.store, x.transactionId, x.eventId))
  }

  // ---------- What the store does ----------

  /** Taking a candidate in changes no attempts, and records the id of every event it takes on. */
  lemma UpsertFacts(s: Store, e: Candidate)
    ensures var (s', reply) := StoreStep(s, Upsert(e));
            && (forall t :: AttemptsOf(s', t) == AttemptsOf(s, t))
            && (forall t, id :: Recorded(s, t, id) ==> Recorded(s', t, id))
            && (TakenOn(reply, e) ==>
                  var t := e.transactionId;
                  && !Recorded(s, t, e.eventId) && Recorded(s', t, e.eventId)
                  && t in StatesOf(s') && reply.state == Some(StatesOf(s')[t])
                  && (t in StatesOf(s) ==> !Finished(StatesOf(s)[t])))
  {
    hide RecordOf, Finished;
    match s {
      case InMemory(m) =>
      case InRedis(r) =>
    }
  }

  lemma SaveFacts(s: Store, t: string, beliefs: seq<Belief>)
    ensures var s' := StoreStep(s, SaveBeliefs(t, beliefs)).0;
            && (forall u :: AttemptsOf(s', u) == AttemptsOf(s, u))
            && (forall u, id :: Recorded(s', u, id) == Recorded(s, u, id))
            && StatesOf(s').Keys == StatesOf(s).Keys
  {
  }

  lemma ApplyFacts(s: Store, t: string, r: PipelineResult, at: string)
    requires t in StatesOf(s)
    ensures var s' := StoreStep(s, Apply(t, r, at)).0;
            && (forall u :: AttemptsOf(s', u) == AttemptsOf(s, u) + if u == t && r.executed then 1 else 0)
            && (forall u, id :: Recorded(s', u, id) == Recorded(s, u, id))
  {
  }

  lemma CountSnoc(executions: seq<Executed>, x: Executed)
    ensures forall t :: CountFor(executions + [x], t) ==
                        CountFor(executions, t) + if x.transactionId == t then 1 else 0
  {
    assert (executions + [x])[..|executions|] == executions;
  }

  /** An execution stays within the attempts that were left, and its transaction is not terminal. */
  lemma ExecutionAllowed(cfg: RecoveryConfig, c: ConsensusResult, ctx: Context, tx: string, version: int,
                         p: PipelineResult)
    requires Outlines(cfg, c, ctx, tx, version, p) && p.executed
    ensures ctx.recoveryAttempts < cfg.maxAttempts && ctx.transactionStatus !in TERMINAL_STATUSES
  {
    hide ConcreteAction, Resolved;
    var g := GuardrailsFor(ConcreteAction(p.consensus.decision, ctx));
    assert g[3] == AttemptLimit && g[5] == TransactionState;
    assert forall i :: 0 <= i < |g| ==> Passes(cfg, p.consensus, ctx, g[i]);
  }

  /** The state the store gives for a candidate it takes on. */
  function Current(s: Service, d: Delivery): Option<RecoveryState> {
    var reply := StoreStep(s.store, Upsert(d.event)).1;
    if TakenOn(reply, d.event) then reply.state else None
  }

  /** What is known of an execution when it is made. */
  predicate Justified(cfg: RecoveryConfig, s: Service, d: Delivery) {
    var t := d.event.transactionId;
    && !Recorded(s.store, t, d.event.eventId)
    && (t in StatesOf(s.store) ==> !Finished(StatesOf(s.store)[t]))
    && Current(s, d).Some? && ContextOf(Current(s, d).value, d).transactionStatus !in TERMINAL_STATUSES
    && AttemptsOf(s.store, t) < cfg.maxAttempts
  }

  lemma ExecutedJustified(cfg: RecoveryConfig, s: Service, d: Delivery, outcome: Reception, s': Service)
    requires Receives(cfg, s, d, outcome, s') && s'.executions != s.executions
    ensures Justified(cfg, s, d)
    ensures s'.executions == s.executions + [Executed(d.event.transactionId, d.event.eventId)]
  {
    hide StoreStep, Aggregated, MemoryAfter, Outlines, ContextOf, Finished, Recorded, AttemptsOf;
    var e, t := d.event, d.event.transactionId;
    UpsertFacts(s.store, e);
    var known := StoreStep(s.store, Upsert(e)).1.state.value;
    var c := Aggregated(cfg, s.memory, d.beliefs, t, known.version);
    ExecutionAllowed(cfg, c.value, ContextOf(known, d), t, known.version, outcome.result.value);
    AttemptsKnown(StoreStep(s.store, Upsert(e)).0, t, d);
  }

  lemma AttemptsKnown(s: Store, t: string, d: Delivery)
    requires t in StatesOf(s)
    ensures AttemptsOf(s, t) == StatesOf(s)[t].attempts == ContextOf(StatesOf(s)[t], d).recoveryAttempts
  {
  }

  /** What one candidate does to the store: it records more, and attempts grow with executions. */
  lemma ReceiveGrows(cfg: RecoveryConfig, s: Service, d: Delivery, outcome: Reception, s': Service)
    requires Receives(cfg, s, d, outcome, s')
    ensures s'.store.InMemory? == s.store.InMemory?
    ensures forall t, id :: Recorded(s.store, t, id) ==> Recorded(s'.store, t, id)
    ensures s'.executions == s.executions ==> forall t :: AttemptsOf(s'.store, t) == AttemptsOf(s.store, t)
    ensures s'.executions != s.executions ==>
              var t := d.event.transactionId;
              && Recorded(s'.store, t, d.event.eventId)
              && forall u :: AttemptsOf(s'.store, u) == AttemptsOf(s.store, u) + if u == t then 1 else 0
  {
    hide StoreStep, Aggregated, MemoryAfter, Outlines, ContextOf, Recorded, AttemptsOf;
    var e, t := d.event, d.event.transactionId;
    UpsertFacts(s.store, e);
    var (upserted, reply) := StoreStep(s.store, Upsert(e));
    SaveFacts(upserted, t, d.beliefs);
    if Assessed(reply, e) && outcome.Received? {
      ApplyFacts(StoreStep(upserted, SaveBeliefs(t, d.beliefs)).0, t, outcome.result.value, d.assessedAt);
    }
  }

  lemma QuietSound(cfg: RecoveryConfig, s: Service, s': Service)
    requires Sound(cfg, s) && s'.executions == s.executions && s'.store.InMemory? == s.store.InMemory?
    requires forall t, id :: Recorded(s.store, t, id) ==> Recorded(s'.store, t, id)
    requires forall t :: AttemptsOf(s'.store, t) == AttemptsOf(s.store, t)
    ensures Sound(cfg, s')
  {
    hide AttemptsOf, CountFor, Recorded;
  }

  lemma ExecutedSound(cfg: RecoveryConfig, s: Service, s': Service, x: Executed)
    requires Sound(cfg, s) && s'.executions == s.executions + [x] && s'.store.InMemory? == s.store.InMemory?
    requires forall t, id :: Recorded(s.store, t, id) ==> Recorded(s'.store, t, id)
    requires Recorded(s'.store, x.transactionId, x.eventId) && !Recorded(s.store, x.transactionId, x.eventId)
    requires forall u :: AttemptsOf(s'.store, u) == AttemptsOf(s.store, u) + if u == x.transactionId then 1 else 0
    requires AttemptsOf(s.store, x.transactionId) < cfg.maxAttempts
    ensures Sound(cfg, s')
  {
    hide AttemptsOf, CountFor, Recorded;
    CountSnoc(s.executions, x);
    forall i | 0 <= i < |s.executions|
      ensures Apart(s'.store, s.executions[i], x)
    {
      assert s.executions[i] in s.executions;
      RecordedApart(s.store, s.executions[i], x);
    }
  }

  lemma ReceiveKeeps(cfg: RecoveryConfig, s: Service, d: Delivery, outcome: Reception, s': Service)
    requires Sound(cfg, s) && Receives(cfg, s, d, outcome, s')
    ensures Sound(cfg, s')
    ensures s'.executions != s.executions ==> Justified(cfg, s, d)
  {
    hide Sound, Receives, AttemptsOf, Recorded, Finished, ContextOf, Current, StatesOf;
    ReceiveGrows(cfg, s, d, outcome, s');
    if s'.executions == s.executions {
      QuietSound(cfg, s, s');
    } else {
      ExecutedJustified(cfg, s, d, outcome, s');
      ExecutedSound(cfg, s, s', Executed(d.event.transactionId, d.event.eventId));
    }
  }

  lemma RecordedApart(s: Store, x: Executed, y: Executed)
    requires Recorded(s, x.transactionId, x.eventId) && !Recorded(s, y.transactionId, y.eventId)
    ensures Apart(s, x, y)
  {
  }

  lemma NewSound(cfg: RecoveryConfig, s: Service)
    requires s.store in NEW_STORES && s == NewService(s.store)
    ensures Sound(cfg, s)
  {
  }

  lemma {:induction false} RunKeeps(cfg: RecoveryConfig, states: seq<Service>, deliveries: seq<Delivery>,
                                    outcomes: seq<Reception>, n: nat)
    requires Run(cfg, states, deliveries, outcomes) && n < |states|
    ensures Sound(cfg, states[n]) && states[n].store.InMemory? == states[0].store.InMemory?
  {
    hide Receives, Sound;
    if n == 0 {
      NewSound(cfg, states[0]);
    } else {
      RunKeeps(cfg, states, deliveries, outcomes, n - 1);
      ReceiveKeeps(cfg, states[n - 1], deliveries[n - 1], outcomes[n - 1], states[n]);
      ReceiveGrows(cfg, states[n - 1], deliveries[n - 1], outcomes[n - 1], states[n]);
    }
  }

  /**
   On either store, however candidates are repeated: a transaction's recovery attempts are the
   executions made for it and never exceed the maximum, and no execution repeats another. When
   one is made the stored transaction was not finished, and neither the store's nor the
   policy's terminal statuses hold of the state it is made for.
   */
  lemma ExecutionsBounded(cfg: RecoveryConfig, states: seq<Service>, deliveries: seq<Delivery>,
                          outcomes: seq<Reception>, n: nat, t: string)
    requires Run(cfg, states, deliveries, outcomes) && n < |states|
    ensures AttemptsOf(states[n].store, t) == CountFor(states[n].executions, t)
    ensures 0 <= AttemptsOf(states[n].store, t) <= if cfg.maxAttempts > 0 then cfg.maxAttempts else 0
    ensures forall i, j :: 0 <= i < j < |states[n].executions| ==>
                             Apart(states[0].store, states[n].executions[i], states[n].executions[j])
    ensures n + 1 < |states| && states[n + 1].executions != states[n].executions ==>
              var e := deliveries[n].event;
              && states[n + 1].executions == states[n].executions + [Executed(e.transactionId, e.eventId)]
              && Justified(cfg, states[n], deliveries[n])
  {
    hide Receives, CountFor, AttemptsOf, Justified;
    RunKeeps(cfg, states, deliveries, outcomes, n);
    if n + 1 < |states| && states[n + 1].executions != states[n].executions {
      ExecutedJustified(cfg, states[n], deliveries[n], outcomes[n], states[n + 1]);
    }
  }

  // ---------- Each event once, on Redis too ----------

  lemma {:induction false} ExecutionsOwned(cfg: RecoveryConfig, states: seq<Service>, deliveries: seq<Delivery>,
                                           outcomes: seq<Reception>, n: nat, owner: string -> string)
    requires Run(cfg, states, deliveries, outcomes) && n < |states|
    requires forall i :: 0 <= i < |deliveries| ==>
                           owner(deliveries[i].event.eventId) == deliveries[i].event.transactionId
    ensures forall x :: x in states[n].executions ==> owner(x.eventId) == x.transactionId
  {
    hide Receives, Justified;
    if n == 0 {
    } else {
      ExecutionsOwned(cfg, states, deliveries, outcomes, n - 1, owner);
      if states[n].executions != states[n - 1].executions {
        ExecutedJustified(cfg, states[n - 1], deliveries[n - 1], outcomes[n - 1], states[n]);
      }
    }
  }

  /** On either store no event is executed twice, where no event id is used for two transactions. */
  lemma EventsExecutedOnce(cfg: RecoveryConfig, states: seq<Service>, deliveries: seq<Delivery>,
                           outcomes: seq<Reception>, n: nat, owner: string -> string)
    requires Run(cfg, states, deliveries, outcomes) && n < |states|
    requires forall i :: 0 <= i < |deliveries| ==>
                           owner(deliveries[i].event.eventId) == deliveries[i].event.transactionId
    ensures forall i, j :: 0 <= i < j < |states[n].executions| ==>
                             states[n].executions[i].eventId != states[n].executions[j].eventId
  {
    hide Receives, Justified, Run;
    ExecutionsBounded(cfg, states, deliveries, outcomes, n, "");
    ExecutionsOwned(cfg, states, deliveries, outcomes, n, owner);
    var ex := states[n].executions;
    forall i, j | 0 <= i < j < |ex|
      ensures ex[i].eventId != ex[j].eventId
    {
      assert ex[i] in ex && ex[j] in ex;
    }
  }

  // ---------- Which stored statuses stop an execution ----------

  /** The n-th candidate is executed while its transaction is stored with this status. */
  predicate ExecutesAt(states: seq<Service>, deliveries: seq<Delivery>, n: nat, status: string)
    requires n < |deliveries| && |states| == |deliveries| + 1
  {
    var t := deliveries[n].event.transactionId;
    && states[n + 1].executions != states[n].executions
    && t in StatesOf(states[n].store) && StatesOf(states[n].store)[t].transactionStatus == status
  }

  /** Some run from this store makes an execution for a transaction that is stored with this status. */
  ghost predicate ExecutesFrom(start: Store, status: string) {
    exists cfg, states: seq<Service>, deliveries: seq<Delivery>, outcomes, n: nat ::
      Run(cfg, states, deliveries, outcomes) && states[0].store == start
      && n < |deliveries| && ExecutesAt(states, deliveries, n, status)
  }

  const SCENE_CFG: RecoveryConfig :=
    RecoveryConfig(map["p" := 1.0], 0.67, 1, 1, 0.0, 0.0, {}, {RetryPayment}, false, 0.0)
  const SCENE_VOTE: Belief := Belief("b", "p", "t", 2, RetryPayment, 1.0, true, "now")
  const SCENE_SAID: Context :=
    Context("payment", "", "", None, None, 0.0, 0, "", "", Some(0.0), false, false, true, false)

  function SceneEvent(id: string, status: string, stage: string): Candidate {
    Candidate("t", id, "", stage, status, status, "", "", 0.0, 0.0, Identity("", "", "", "", "", ""))
  }

  function SceneFirst(status: string): Delivery {
    Delivery(SceneEvent("1", status, ""), [], SCENE_SAID, "")
  }

  function SceneSecond(): Delivery {
    Delivery(SceneEvent("2", "failure", "payment"), [SCENE_VOTE], SCENE_SAID, "")
  }

  /** The service after a first candidate that only leaves its status. */
  function SceneMiddle(start: Store, status: string): Service {
    var d := SceneFirst(status);
    NewService(StoreStep(StoreStep(start, Upsert(d.event)).0, SaveBeliefs("t", [])).0)
  }

  lemma SceneStores(start: Store, status: string)
    requires start in NEW_STORES && status !in FINAL
    ensures Receives(SCENE_CFG, NewService(start), SceneFirst(status), Received(None), SceneMiddle(start, status))
    ensures var s := SceneMiddle(start, status).store;
            && "t" in StatesOf(s) && StatesOf(s)["t"].transactionStatus == status
            && StatesOf(s)["t"].version == 1 && StatesOf(s)["t"].attempts == 0
            && !Recorded(s, "t", "2")
  {
  }

  lemma SceneUpsert(s: Store, status: string)
    requires "t" in StatesOf(s) && StatesOf(s)["t"].transactionStatus == status && status !in FINAL
    requires StatesOf(s)["t"].version == 1 && StatesOf(s)["t"].attempts == 0 && !Recorded(s, "t", "2")
    ensures var reply := StoreStep(s, Upsert(SceneSecond().event)).1;
            && Assessed(reply, SceneSecond().event) && reply.state.value.version == 2
            && ContextOf(reply.state.value, SceneSecond()) == SCENE_SAID.(transactionStatus := "failure")
  {
  }

  /** One valid vote with full confidence makes a quorum. */
  lemma AloneDecides(cfg: RecoveryConfig, m: Memory, x: Belief, tx: string, version: int)
    requires Takes(cfg, m, x, tx, version) && cfg.minValidAgents == 1 && cfg.threshold <= 1.0
    requires x.agentId in cfg.agentWeights && cfg.agentWeights[x.agentId] == 1.0 && x.confidence == 1.0
    requires x.recommendation in SAFETY && x.recommendation != DoNothing
    ensures var r := Aggregated(cfg, m, [x], tx, version);
            && r.Some? && r.value.decision == x.recommendation && r.value.status == QuorumReached
            && r.value.supportRatio == 1.0 && r.value.validCount == 1
            && Recover in r.value.ratios && x.recommendation in r.value.ratios
            && r.value.ratios[x.recommendation] == 1.0
            && r.value.ratios[Recover] == Ratio(cfg, [x], Recover)
  {
    hide Takes, Ratio, BestOf;
    AloneValid(cfg, m, x, tx, version);
    assert Voted([x]) == {x.recommendation} by {
      assert x in [x];
    }
    AloneRatio(cfg, x);
    BestOfWins(cfg, [x], |SAFETY|);
    assert SAFETY[Rank(x.recommendation)] == x.recommendation && SAFETY[6] == Recover;
  }

  lemma AloneValid(cfg: RecoveryConfig, m: Memory, x: Belief, tx: string, version: int)
    requires Takes(cfg, m, x, tx, version)
    ensures ValidOnes([x], Verdicts(cfg, m, [x], tx, version)) == [x]
  {
    assert [x][..0] == [];
    assert Verdicts(cfg, m, [x], tx, version) == [Judged(cfg, m, x, tx, version)];
  }

  /** A regular execution of the inferred action. */
  function SceneResult(c: ConsensusResult, ctx: Context): PipelineResult {
    var r := Resolved(SCENE_CFG, c, ctx);
    var rules := GuardrailsFor(RetryPayment);
    PipelineResult(r, PolicyResult(true, Some(RetryPayment), NoneFailed, Map((g: Guardrail) => Check(g, true), rules)),
                   Some(ActionRecord("a", "t", 2, RetryPayment, "", "", SucceededExecution, 0.0)),
                   Some(Outcome(false, 0.0)), true)
  }

  lemma SceneExecutes(c: ConsensusResult, ctx: Context)
    requires ctx == SCENE_SAID.(transactionStatus := "failure")
    requires c.decision == RetryPayment && c.status == QuorumReached && c.supportRatio == 1.0 && c.validCount == 1
    requires RatioIn(c, RetryPayment) == 1.0 && RatioIn(c, Recover) == 0.0
    ensures Outlines(SCENE_CFG, c, ctx, "t", 2, SceneResult(c, ctx)) && SceneResult(c, ctx).executed
  {
    assert Inferred(ctx) == RetryPayment;
    var r := Resolved(SCENE_CFG, c, ctx);
    assert r.decision == RetryPayment && r.supportRatio == 1.0 && r.status == QuorumReached;
    assert forall g :: g in GuardrailsFor(RetryPayment) ==> Passes(SCENE_CFG, r, ctx, g);
  }

  lemma NoRecoverRatio(cfg: RecoveryConfig, x: Belief)
    requires x.recommendation != Recover
    ensures Ratio(cfg, [x], Recover) == 0.0
  {
    assert [x][..0] == [];
    assert SumBy(Backing(cfg, Recover), [x]) == SumBy(Backing(cfg, Recover), []) + 0.0;
  }

  /** The second candidate of the scene is executed. */
  lemma SceneAssesses(s: Service, known: RecoveryState, saved: Store) returns (p: PipelineResult, after: Service)
    requires s.memory == Memory({}, map[], {}) && s.executions == [] && known.version == 2
    requires ContextOf(known, SceneSecond()) == SCENE_SAID.(transactionStatus := "failure")
    ensures Assesses(SCENE_CFG, s, SceneSecond(), known, saved, Received(Some(p)), after) && after.executions != []
  {
    var d, ctx := SceneSecond(), ContextOf(known, SceneSecond());
    hide ContextOf, Aggregated, MemoryAfter, Outlines, StoreStep, Ratio;
    assert Takes(SCENE_CFG, s.memory, SCENE_VOTE, "t", 2);
    assert SAFETY[2] == RetryPayment;
    AloneDecides(SCENE_CFG, s.memory, SCENE_VOTE, "t", 2);
    NoRecoverRatio(SCENE_CFG, SCENE_VOTE);
    var c := Aggregated(SCENE_CFG, s.memory, [SCENE_VOTE], "t", 2).value;
    SceneExecutes(c, ctx);
    p := SceneResult(c, ctx);
    after := Service(StoreStep(saved, Apply("t", p, "")).0,
                     MemoryAfter(SCENE_CFG, s.memory, d.beliefs, "t", 2), [Executed("t", "2")]);
  }

  /**
   On either store, an execution can follow on a transaction stored with a given status if and
   only if that status is not one of the store's five. So `captured_success` and
   `settled_success`, which the policy counts as terminal, do not stop it.
   */
  lemma ExecutesFromIff(start: Store, status: string)
    requires start in NEW_STORES
    ensures ExecutesFrom(start, status) <==> status !in {"success", "succeeded", "captured", "settled", "recovered"}
  {
    hide Receives, StoreStep, Justified;
    if ExecutesFrom(start, status) {
      var cfg, states: seq<Service>, deliveries: seq<Delivery>, outcomes, n: nat :|
        Run(cfg, states, deliveries, outcomes) && states[0].store == start
        && n < |deliveries| && ExecutesAt(states, deliveries, n, status);
      ExecutedJustified(cfg, states[n], deliveries[n], outcomes[n], states[n + 1]);
      JustifiedStatus(cfg, states[n], deliveries[n]);
    }
    if status !in FINAL {
      SceneRuns(start, status);
    }
  }

  lemma JustifiedStatus(cfg: RecoveryConfig, s: Service, d: Delivery)
    requires Justified(cfg, s, d) && d.event.transactionId in StatesOf(s.store)
    ensures StatesOf(s.store)[d.event.transactionId].transactionStatus !in FINAL
  {
  }

  lemma SceneRuns(start: Store, status: string)
    requires start in NEW_STORES && status !in FINAL
    ensures ExecutesFrom(start, status)
  {
    hide StoreStep, Recorded, ContextOf, Assesses, SceneSecond, SceneFirst;
    var middle, d := SceneMiddle(start, status), SceneSecond();
    SceneStores(start, status);
    SceneUpsert(middle.store, status);
    var (upserted, reply) := StoreStep(middle.store, Upsert(d.event));
    var saved := StoreStep(upserted, SaveBeliefs("t", d.beliefs)).0;
    var p, after := SceneAssesses(middle, reply.state.value, saved);
    SecondReceives(middle, saved, Received(Some(p)), after);
    hide Receives;
    var states, deliveries := [NewService(start), middle, after], [SceneFirst(status), d];
    var outcomes := [Received(None), Received(Some(p))];
    assert Run(SCENE_CFG, states, deliveries, outcomes);
    SecondIsForT();
    assert ExecutesAt(states, deliveries, 1, status);
  }

  lemma SecondIsForT()
    ensures SceneSecond().event.transactionId == "t"
  {
  }

  lemma SecondReceives(middle: Service, saved: Store, outcome: Reception, after: Service)
    requires var d := SceneSecond();
             var (upserted, reply) := StoreStep(middle.store, Upsert(d.event));
             && saved == StoreStep(upserted, SaveBeliefs("t", d.beliefs)).0
             && Assessed(reply, d.event) && Assesses(SCENE_CFG, middle, d, reply.state.value, saved, outcome, after)
    ensures Receives(SCENE_CFG, middle, SceneSecond(), outcome, after)
  {
    hide StoreStep, Assesses;
  }
}
