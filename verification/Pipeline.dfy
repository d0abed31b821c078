/** From a consensus to an executed action: merging RECOVER support, the guardrails, the executor. */
module Pipeline {
  import opened Collections
  import opened Consensus

  /** Texts are compared without regard to case; an absent text is the empty string. */
  datatype Context = Context(
    stage: string, transactionStatus: string, failureCode: string, intentScore: Option<real>,
    currentMedian: Option<real>, amount: real, recoveryAttempts: int, currentProvider: string,
    targetProvider: string, expectedRoi: Option<real>, alreadySuccessful: bool,
    alreadyRecovered: bool, syntheticSuccess: bool, syntheticVerified: bool)

  const PROVIDER_FAILURES: set<string> :=
    {"TIMEOUT", "PROVIDER_ERROR", "GATEWAY_ERROR", "CONNECTION_ERROR", "ISSUER_TIMEOUT"}

  const TERMINAL_STATUSES: set<string> :=
    {"success", "succeeded", "captured", "settled", "recovered", "captured_success", "settled_success"}

  /** `float(value or otherwise)`: an absent number and zero both give way. */
  function NumberOr(x: Option<real>, otherwise: real): real {
    if x.Some? && x.value != 0.0 then x.value else otherwise
  }

  predicate LinkWorthy(ctx: Context) {
    ctx.stage == "checkout" && NumberOr(ctx.intentScore, 0.0) > NumberOr(ctx.currentMedian, 1.0)
  }

  predicate ProviderAtFault(ctx: Context) {
    ctx.failureCode in PROVIDER_FAILURES && ctx.targetProvider != ""
  }

  /** The concrete action the failure itself suggests. */
  function Inferred(ctx: Context): Recommendation {
    if LinkWorthy(ctx) then SendPaymentLink
    else if ProviderAtFault(ctx) then SwitchProvider
    else if ctx.stage == "capture" then RetryCapture
    else if ctx.stage in {"payment", "authorization", "auth"} then RetryPayment
    else DoNothing
  }

  function RatioIn(r: ConsensusResult, a: Recommendation): real {
    if a in r.ratios then r.ratios[a] else 0.0
  }

  function Combined(r: ConsensusResult, a: Recommendation): real {
    RatioIn(r, Recover) + RatioIn(r, a)
  }

  /** Support for RECOVER counts for the inferred action. */
  function Resolved(cfg: RecoveryConfig, r: ConsensusResult, ctx: Context): ConsensusResult {
    var a := Inferred(ctx);
    if a == DoNothing || Combined(r, a) < cfg.threshold || r.validCount < cfg.minValidAgents then r
    else
      r.(decision := a, status := QuorumReached, supportRatio := Combined(r, a),
         ratios := r.ratios[a := Combined(r, a)])
  }

  function ConcreteAction(decision: Recommendation, ctx: Context): Recommendation {
    if decision != Recover then decision
    else if Inferred(ctx) != DoNothing then Inferred(ctx)
    else if ctx.targetProvider != "" then SwitchProvider
    else DoNothing
  }

  // ---------- The guardrails ----------

  datatype Guardrail =
    | KillSwitch | ConsensusThreshold | ActionAllowlist | AttemptLimit | AmountLimit
    | TransactionState | Roi | ProviderAllowlist | NoneFailed

  datatype Check = Check(guardrail: Guardrail, passed: bool)

  datatype PolicyResult = PolicyResult(
    allowed: bool, action: Option<Recommendation>, failed: Guardrail, checks: seq<Check>)

  predicate Passes(cfg: RecoveryConfig, r: ConsensusResult, ctx: Context, g: Guardrail) {
    var action := ConcreteAction(r.decision, ctx);
    match g
    case KillSwitch => !cfg.killSwitch
    case ConsensusThreshold => r.status == QuorumReached && r.supportRatio >= cfg.threshold
    case ActionAllowlist => action in cfg.allowedActions
    case AttemptLimit => ctx.recoveryAttempts < cfg.maxAttempts
    case AmountLimit => ctx.amount <= cfg.maxAmount
    case TransactionState =>
      ctx.transactionStatus !in TERMINAL_STATUSES && !ctx.alreadySuccessful && !ctx.alreadyRecovered
    case Roi => ctx.expectedRoi.Some? && ctx.expectedRoi.value >= cfg.minRoi
    case ProviderAllowlist => action == SwitchProvider ==> ctx.targetProvider in cfg.allowedProviders
    case NoneFailed => true
  }

  /** The guardrails in the order they are checked. */
  function GuardrailsFor(action: Recommendation): seq<Guardrail> {
    [KillSwitch, ConsensusThreshold, ActionAllowlist, AttemptLimit, AmountLimit, TransactionState, Roi]
    + (if action == SwitchProvider then [ProviderAllowlist] else [])
  }

  /** Every guardrail holds, in whatever order one looks. */
  predicate AllPass(cfg: RecoveryConfig, r: ConsensusResult, ctx: Context) {
    forall g :: g in GuardrailsFor(ConcreteAction(r.decision, ctx)) ==> Passes(cfg, r, ctx, g)
  }

  /** What the policy answers: an action that passes all guardrails, or the checks up to the first that fails. */
  predicate Answers(cfg: RecoveryConfig, r: ConsensusResult, ctx: Context, p: PolicyResult) {
    var rules := GuardrailsFor(ConcreteAction(r.decision, ctx));
    && p.action == (if p.allowed then Some(ConcreteAction(r.decision, ctx)) else None)
    && |p.checks| <= |rules|
    && (forall i :: 0 <= i < |p.checks| ==> p.checks[i] == Check(rules[i], Passes(cfg, r, ctx, rules[i])))
    && (p.allowed ==> |p.checks| == |rules| && p.failed == NoneFailed)
    && (!p.allowed ==> |p.checks| > 0 && p.failed == p.checks[|p.checks| - 1].guardrail)
    && (forall i :: 0 <= i < |p.checks| ==> (p.checks[i].passed <==> p.allowed || i < |p.checks| - 1))
  }

  method DecidePolicy(cfg: RecoveryConfig, r: ConsensusResult, ctx: Context) returns (p: PolicyResult)
    ensures p.allowed <==> AllPass(cfg, r, ctx)
    ensures Answers(cfg, r, ctx, p)
  {
    hide Passes;
    var action := ConcreteAction(r.decision, ctx);
    var rules := GuardrailsFor(action);
    var checks: seq<Check> := [];
    for i := 0 to |rules|
      invariant |checks| == i
      invariant forall j :: 0 <= j < i ==> checks[j] == Check(rules[j], true) && Passes(cfg, r, ctx, rules[j])
    {
      var passed := Passes(cfg, r, ctx, rules[i]);
      checks := checks + [Check(rules[i], passed)];
      if !passed {
        assert rules[i] in rules;
        return PolicyResult(false, None, rules[i], checks);
      }
    }
    forall g | g in rules
      ensures Passes(cfg, r, ctx, g)
    {
      var i :| 0 <= i < |rules| && rules[i] == g;
      assert checks[i].passed;
    }
    p := PolicyResult(true, Some(action), NoneFailed, checks);
  }

  // ---------- The executor and the whole pipeline ----------

  datatype Execution = SucceededExecution | FailedExecution | DuplicateExecution

  datatype ActionRecord = ActionRecord(
    actionId: string, transactionId: string, stateVersion: int, action: Recommendation,
    currentProvider: string, targetProvider: string, execution: Execution, recoveryCost: real)

  datatype Outcome = Outcome(recovered: bool, amountRecovered: real)

  datatype PipelineResult = PipelineResult(
    consensus: ConsensusResult, policy: PolicyResult, action: Option<ActionRecord>,
    outcome: Option<Outcome>, executed: bool)

  datatype ActionKey = ActionKey(transactionId: string, stateVersion: int, actionId: string)

  function ExecutionOf(executed: set<ActionKey>, key: ActionKey, ctx: Context): Execution {
    if key in executed then DuplicateExecution
    else if ctx.syntheticSuccess then SucceededExecution else FailedExecution
  }

  class RecoveryPipeline {
    const cfg: RecoveryConfig
    const consensus: WeightedConsensus
    var executed: set<ActionKey>

    ghost predicate Valid()
      reads this
    {
      consensus.cfg == cfg && consensus.validator.cfg == cfg
    }

    constructor (cfg: RecoveryConfig)
      ensures Valid() && this.cfg == cfg && executed == {} && fresh(consensus) && fresh(consensus.validator)
      ensures consensus.validator.State() == Memory({}, map[], {})
    {
      this.cfg := cfg;
      consensus := new WeightedConsensus(cfg);
      executed := {};
    }

    /** `None` is the KeyError of the aggregation. The action id is fresh in the source. */
    method Run(tx: string, version: int, beliefs: seq<Belief>, ctx: Context, actionId: string)
      returns (result: Option<PipelineResult>)
      requires Valid()
      modifies this`executed, consensus.validator
      ensures Valid()
      ensures consensus.validator.State() == MemoryAfter(cfg, old(consensus.validator.State()), beliefs, tx, version)
      ensures var c := Aggregated(cfg, old(consensus.validator.State()), beliefs, tx, version);
              && (result.None? <==> c.None?)
              && (result.Some? ==> Outlines(cfg, c.value, ctx, tx, version, result.value))
      ensures result.Some? && result.value.executed ==>
                var key := ActionKey(tx, version, actionId);
                && executed == old(executed) + {key} && result.value.action.value.actionId == actionId
                && (result.value.action.value.execution == DuplicateExecution <==> key in old(executed))
                && (result.value.action.value.execution == SucceededExecution <==>
                    key !in old(executed) && ctx.syntheticSuccess)
      ensures result.None? || !result.value.executed ==> executed == old(executed)
    {
      hide Aggregated, MemoryAfter, Passes;
      var c := consensus.Aggregate(beliefs, tx, version);
      if c.None? {
        return None;
      }
      var resolved := Resolved(cfg, c.value, ctx);
      var policy := DecidePolicy(cfg, resolved, ctx);
      if !policy.allowed {
        return Some(PipelineResult(resolved, policy, None, None, false));
      }
      var key := ActionKey(tx, version, actionId);
      var execution := ExecutionOf(executed, key, ctx);
      executed := executed + {key};
      var action := ActionRecord(
        actionId, tx, version, policy.action.value, ctx.currentProvider, ctx.targetProvider, execution,
        if execution == DuplicateExecution then 0.0 else cfg.recoveryCost);
      var recovered := execution == SucceededExecution && ctx.syntheticVerified;
      var outcome := Outcome(recovered, if recovered then ctx.amount else 0.0);
      result := Some(PipelineResult(resolved, policy, Some(action), Some(outcome), true));
    }
  }

  /** What a result of `Run` says, apart from the executor's own bookkeeping. */
  ghost predicate Outlines(cfg: RecoveryConfig, c: ConsensusResult, ctx: Context, tx: string, version: int,
                           p: PipelineResult)
  {
    && p.consensus == Resolved(cfg, c, ctx)
    && (p.executed <==> AllPass(cfg, p.consensus, ctx))
    && p.policy.allowed == p.executed && Answers(cfg, p.consensus, ctx, p.policy)
    && (p.action.Some? <==> p.executed) && (p.outcome.Some? <==> p.executed)
    && (p.executed ==>
          && p.action.value.action == ConcreteAction(p.consensus.decision, ctx)
          && p.policy.action == Some(p.action.value.action)
          && p.action.value.transactionId == tx && p.action.value.stateVersion == version
          && p.action.value.targetProvider == ctx.targetProvider
          && p.action.value.currentProvider == ctx.currentProvider
          && p.action.value.recoveryCost ==
             (if p.action.value.execution == DuplicateExecution then 0.0 else cfg.recoveryCost)
          && p.outcome.value.recovered == (p.action.value.execution == SucceededExecution && ctx.syntheticVerified)
          && p.outcome.value.amountRecovered == (if p.outcome.value.recovered then ctx.amount else 0.0))
  }
}
