/** Which action a failure leads to, told from the votes and the context alone. */
module PipelineActions {
  import opened Collections
  import opened Consensus
  import opened ConsensusTheorems
  import opened Pipeline
  import opened PipelineTheorems

  // ---------- What the context asks for ----------

  /** At the checkout with an intent above the median; a median that is absent or zero reads 1. */
  predicate EagerAtCheckout(ctx: Context) {
    && ctx.stage == "checkout"
    && (if ctx.intentScore.Some? then ctx.intentScore.value else 0.0)
       > (if ctx.currentMedian.Some? && ctx.currentMedian.value != 0.0 then ctx.currentMedian.value else 1.0)
  }

  /** The provider failed and there is another one to go to. */
  predicate ProviderFailed(ctx: Context) {
    && ctx.failureCode in {"TIMEOUT", "PROVIDER_ERROR", "GATEWAY_ERROR", "CONNECTION_ERROR", "ISSUER_TIMEOUT"}
    && ctx.targetProvider != ""
  }

  /** The action that the failure itself suggests, for which votes of RECOVER count. */
  predicate Suggests(ctx: Context, a: Recommendation) {
    match a
    case SendPaymentLink => EagerAtCheckout(ctx)
    case SwitchProvider => !EagerAtCheckout(ctx) && ProviderFailed(ctx)
    case RetryCapture => !ProviderFailed(ctx) && ctx.stage == "capture"
    case RetryPayment =>
      !ProviderFailed(ctx) && (ctx.stage == "payment" || ctx.stage == "authorization" || ctx.stage == "auth")
    case _ => false
  }

  /** What a decision to RECOVER comes down to: without a suggestion, going to the target provider if there is one. */
  predicate LeadsTo(ctx: Context, a: Recommendation) {
    || Suggests(ctx, a)
    || ((forall s :: !Suggests(ctx, s)) && a == if ctx.targetProvider != "" then SwitchProvider else DoNothing)
  }

  /** Every context leads to exactly one action. */
  lemma LeadsToOne(ctx: Context)
    ensures exists a :: LeadsTo(ctx, a)
    ensures forall a, b :: LeadsTo(ctx, a) && LeadsTo(ctx, b) ==> a == b
  {
    if forall s :: !Suggests(ctx, s) {
      assert LeadsTo(ctx, if ctx.targetProvider != "" then SwitchProvider else DoNothing);
    } else {
      var s :| Suggests(ctx, s);
      assert LeadsTo(ctx, s);
    }
  }

  lemma InferredIff(ctx: Context, a: Recommendation)
    ensures Suggests(ctx, a) <==> a == Inferred(ctx) && a != DoNothing
  {
  }

  lemma ConcreteIff(ctx: Context, a: Recommendation)
    ensures LeadsTo(ctx, a) <==> a == ConcreteAction(Recover, ctx)
  {
    hide Suggests, Inferred;
    forall s
      ensures Suggests(ctx, s) <==> s == Inferred(ctx) && s != DoNothing
    {
      InferredIff(ctx, s);
    }
    assert Inferred(ctx) != DoNothing ==> Suggests(ctx, Inferred(ctx));
  }

  // ---------- What is executed ----------

  /** Votes for RECOVER and for what the failure suggests reach the threshold together. */
  predicate Merges(cfg: RecoveryConfig, valid: seq<Belief>, ctx: Context, a: Recommendation) {
    && Suggests(ctx, a) && |valid| >= cfg.minValidAgents
    && Ratio(cfg, valid, Recover) + Ratio(cfg, valid, a) >= cfg.threshold
  }

  predicate HasQuorum(cfg: RecoveryConfig, valid: seq<Belief>, d: Recommendation) {
    Decided(cfg, valid) == Some(Decision(d, QuorumReached))
  }

  /** How the votes arrive at an action: by merging, or else by a quorum for it or for RECOVER. */
  ghost predicate Chosen(cfg: RecoveryConfig, valid: seq<Belief>, ctx: Context, a: Recommendation) {
    || Merges(cfg, valid, ctx, a)
    || ((forall s :: !Merges(cfg, valid, ctx, s))
        && ((a != Recover && HasQuorum(cfg, valid, a)) || (HasQuorum(cfg, valid, Recover) && LeadsTo(ctx, a))))
  }

  /** The same on a consensus that reports the ratios and the decision of the valid beliefs. */
  lemma ChosenFrom(cfg: RecoveryConfig, valid: seq<Belief>, c: ConsensusResult, ctx: Context, a: Recommendation)
    requires c.validCount == |valid| && Decided(cfg, valid) == Some(Decision(c.decision, c.status))
    requires c.status == QuorumReached ==> c.supportRatio >= cfg.threshold
    requires RatioIn(c, Recover) == Ratio(cfg, valid, Recover)
    requires RatioIn(c, Inferred(ctx)) == Ratio(cfg, valid, Inferred(ctx))
    ensures var r := Resolved(cfg, c, ctx);
            r.status == QuorumReached && r.supportRatio >= cfg.threshold && ConcreteAction(r.decision, ctx) == a
            <==> Chosen(cfg, valid, ctx, a)
  {
    hide Ratio, Inferred, Suggests, LeadsTo, Decided, ConcreteAction;
    var i := Inferred(ctx);
    InferredFacts(ctx);
    ConcreteIff(ctx, a);
    MergesIff(cfg, valid, ctx, a);
    MergesIff(cfg, valid, ctx, i);
    if Merges(cfg, valid, ctx, i) {
    } else {
      forall s
        ensures !Merges(cfg, valid, ctx, s)
      {
        MergesIff(cfg, valid, ctx, s);
      }
    }
  }

  lemma MergesIff(cfg: RecoveryConfig, valid: seq<Belief>, ctx: Context, a: Recommendation)
    ensures Merges(cfg, valid, ctx, a) <==>
            && a == Inferred(ctx) && a != DoNothing && |valid| >= cfg.minValidAgents
            && Ratio(cfg, valid, Recover) + Ratio(cfg, valid, a) >= cfg.threshold
  {
    hide Ratio, Inferred, Suggests;
    InferredIff(ctx, a);
  }

  lemma ChosenIff(cfg: RecoveryConfig, m: Memory, beliefs: seq<Belief>, tx: string, version: int, ctx: Context,
                  a: Recommendation)
    requires Aggregated(cfg, m, beliefs, tx, version).Some?
    ensures var r := Resolved(cfg, Aggregated(cfg, m, beliefs, tx, version).value, ctx);
            r.status == QuorumReached && r.supportRatio >= cfg.threshold && ConcreteAction(r.decision, ctx) == a
            <==> Chosen(cfg, ValidIn(cfg, m, beliefs, tx, version), ctx, a)
  {
    hide Aggregated, ValidIn, Ratio, Inferred, Chosen, Resolved, ConcreteAction, Decided;
    QuorumFacts(cfg, m, beliefs, tx, version);
    DecisionReported(cfg, m, beliefs, tx, version);
    InferredFacts(ctx);
    assert SAFETY[6] == Recover;
    ChosenFrom(cfg, ValidIn(cfg, m, beliefs, tx, version), Aggregated(cfg, m, beliefs, tx, version).value, ctx, a);
  }

  /**
   What is reported after merging: each action's own ratio, but for the one that RECOVER was merged
   into, which has both, and the support of the decision among them.
   */
  lemma MergedReport(cfg: RecoveryConfig, m: Memory, beliefs: seq<Belief>, tx: string, version: int, ctx: Context,
                     a: Recommendation)
    requires Aggregated(cfg, m, beliefs, tx, version).Some? && a in SAFETY
    ensures var r := Resolved(cfg, Aggregated(cfg, m, beliefs, tx, version).value, ctx);
            var valid := ValidIn(cfg, m, beliefs, tx, version);
            && RatioIn(r, a) == (if Merges(cfg, valid, ctx, a)
                                 then Ratio(cfg, valid, a) + Ratio(cfg, valid, Recover) else Ratio(cfg, valid, a))
            && (r.decision == a ==> r.supportRatio == RatioIn(r, a))
            && (Merges(cfg, valid, ctx, a) ==> r.decision == a && r.status == QuorumReached)
  {
    hide Aggregated, ValidIn, Ratio, Inferred, Suggests, Decided;
    QuorumFacts(cfg, m, beliefs, tx, version);
    InferredFacts(ctx);
    assert SAFETY[6] == Recover;
    MergesIff(cfg, ValidIn(cfg, m, beliefs, tx, version), ctx, a);
  }

  lemma DecisionReported(cfg: RecoveryConfig, m: Memory, beliefs: seq<Belief>, tx: string, version: int)
    requires Aggregated(cfg, m, beliefs, tx, version).Some?
    ensures var c := Aggregated(cfg, m, beliefs, tx, version).value;
            Decided(cfg, ValidIn(cfg, m, beliefs, tx, version)) == Some(Decision(c.decision, c.status))
  {
    hide Verdicts, ValidOnes, Decided;
  }

  /**
   An action is executed if and only if the votes choose it, by themselves or through what the
   context leads to, and the guardrails authorise it.
   */
  lemma ExecutedIff(cfg: RecoveryConfig, m: Memory, beliefs: seq<Belief>, tx: string, version: int, ctx: Context,
                    p: PipelineResult, a: Recommendation)
    requires Aggregated(cfg, m, beliefs, tx, version).Some?
    requires Outlines(cfg, Aggregated(cfg, m, beliefs, tx, version).value, ctx, tx, version, p)
    ensures p.executed && p.action.value.action == a <==>
            Chosen(cfg, ValidIn(cfg, m, beliefs, tx, version), ctx, a) && Authorised(cfg, a, ctx)
  {
    hide Aggregated, ValidIn, Chosen, Resolved, ConcreteAction, AllPass, Authorised;
    AllPassIff(cfg, p.consensus, ctx);
    ChosenIff(cfg, m, beliefs, tx, version, ctx, a);
  }

  /** An executed action for which no valid belief voted is the one action the context leads to. */
  lemma UnvotedActions(cfg: RecoveryConfig, m: Memory, beliefs: seq<Belief>, tx: string, version: int, ctx: Context,
                       p: PipelineResult)
    requires Aggregated(cfg, m, beliefs, tx, version).Some?
    requires Outlines(cfg, Aggregated(cfg, m, beliefs, tx, version).value, ctx, tx, version, p) && p.executed
    requires forall b :: b in ValidIn(cfg, m, beliefs, tx, version) ==> b.recommendation != p.action.value.action
    ensures forall a :: p.action.value.action == a <==> LeadsTo(ctx, a)
  {
    hide Aggregated, ValidIn, LeadsTo, Merges, Authorised, Decided, Resolved, AllPass, ConcreteAction;
    var valid, a := ValidIn(cfg, m, beliefs, tx, version), p.action.value.action;
    ExecutedIff(cfg, m, beliefs, tx, version, ctx, p, a);
    LeadsToOne(ctx);
    QuorumFacts(cfg, m, beliefs, tx, version);
    DecisionReported(cfg, m, beliefs, tx, version);
    if Merges(cfg, valid, ctx, a) {
      MergedLeads(cfg, valid, ctx, a);
    }
    assert a in Voted(valid) ==> exists b :: b in valid && b.recommendation == a;
  }

  lemma MergedLeads(cfg: RecoveryConfig, valid: seq<Belief>, ctx: Context, a: Recommendation)
    requires Merges(cfg, valid, ctx, a)
    ensures LeadsTo(ctx, a)
  {
  }

  /** After a quorum for RECOVER, exactly the action that the context leads to is executed, if it is authorised. */
  lemma AfterRecover(cfg: RecoveryConfig, m: Memory, beliefs: seq<Belief>, tx: string, version: int, ctx: Context,
                     p: PipelineResult, a: Recommendation)
    requires Aggregated(cfg, m, beliefs, tx, version).Some?
    requires HasQuorum(cfg, ValidIn(cfg, m, beliefs, tx, version), Recover)
    requires Outlines(cfg, Aggregated(cfg, m, beliefs, tx, version).value, ctx, tx, version, p)
    ensures p.executed && p.action.value.action == a <==> LeadsTo(ctx, a) && Authorised(cfg, a, ctx)
  {
    hide Aggregated, ValidIn, Outlines, LeadsTo, Merges, Ratio, Authorised, Decided;
    var valid := ValidIn(cfg, m, beliefs, tx, version);
    ExecutedIff(cfg, m, beliefs, tx, version, ctx, p, a);
    LeadsToOne(ctx);
    if s :| Merges(cfg, valid, ctx, s) {
      MergedLeads(cfg, valid, ctx, s);
    }
    if Merges(cfg, valid, ctx, a) {
      MergedLeads(cfg, valid, ctx, a);
    }
  }

  /** A failed authorisation that a quorum wants to RECOVER leads to a new payment and never to a capture. */
  lemma FailedAuthorization(ctx: Context)
    requires ctx.stage == "authorization" && ctx.failureCode == "INSUFFICIENT_FUNDS"
    ensures forall a :: LeadsTo(ctx, a) <==> a == RetryPayment
  {
    LeadsToOne(ctx);
    assert Suggests(ctx, RetryPayment);
  }
}
