/** What an executed recovery action is backed by, and what merging RECOVER support may change. */
module PipelineTheorems {
  import opened Collections
  import opened Consensus
  import opened ConsensusTheorems
  import opened Pipeline

  function ValidIn(cfg: RecoveryConfig, m: Memory, beliefs: seq<Belief>, tx: string, version: int): seq<Belief> {
    ValidOnes(beliefs, Verdicts(cfg, m, beliefs, tx, version))
  }

  /** What the guardrails ask of an action, told about the action and the context alone. */
  predicate Authorised(cfg: RecoveryConfig, a: Recommendation, ctx: Context) {
    && !cfg.killSwitch && a in cfg.allowedActions && a != Recover
    && ctx.recoveryAttempts < cfg.maxAttempts && ctx.amount <= cfg.maxAmount
    && ctx.transactionStatus !in {"success", "succeeded", "captured", "settled", "recovered",
                                  "captured_success", "settled_success"}
    && !ctx.alreadySuccessful && !ctx.alreadyRecovered
    && ctx.expectedRoi.Some? && ctx.expectedRoi.value >= cfg.minRoi
    && (a == SwitchProvider ==> ctx.targetProvider in cfg.allowedProviders)
  }

  lemma Enough(s: real, t: real, threshold: real)
    requires t >= 0.0 && s >= 0.0 && (t > 0.0 ==> s / t >= threshold)
    ensures s >= threshold * t
  {
    if t > 0.0 {
      assert s == s / t * t;
      Scale(threshold, s / t, t);
    }
  }

  lemma Scale(x: real, y: real, t: real)
    requires x <= y && t > 0.0
    ensures x * t <= y * t
  {
  }

  /** The ratios of an action and of RECOVER together, weighed by the total. */
  lemma BackedBy(cfg: RecoveryConfig, valid: seq<Belief>, a: Recommendation, threshold: real)
    requires FairWeights(cfg) && SoundBeliefs(valid)
    requires Ratio(cfg, valid, a) + Ratio(cfg, valid, Recover) >= threshold
    ensures Support(cfg, valid, a) + Support(cfg, valid, Recover) >= threshold * Total(cfg, valid)
  {
    hide Support, Total;
    SupportBetween(cfg, valid, a);
    SupportBetween(cfg, valid, Recover);
    var x, y, t := Support(cfg, valid, a), Support(cfg, valid, Recover), Total(cfg, valid);
    if t > 0.0 {
      QuotientSum(x, y, t);
    }
    Enough(x + y, t, threshold);
  }

  /** A quorum was reached by at least the minimum of valid beliefs, with the ratio it reports. */
  lemma QuorumFacts(cfg: RecoveryConfig, m: Memory, beliefs: seq<Belief>, tx: string, version: int)
    requires Aggregated(cfg, m, beliefs, tx, version).Some?
    ensures var c, valid := Aggregated(cfg, m, beliefs, tx, version).value, ValidIn(cfg, m, beliefs, tx, version);
            && c.validCount == |valid| && c.supportRatio == Ratio(cfg, valid, c.decision)
            && (c.status == InsufficientEvidence <==> |valid| < cfg.minValidAgents)
            && (c.status == QuorumReached ==>
                  c.decision in SAFETY && Reaches(cfg, valid, c.decision) && c.decision in Voted(valid))
            && (c.status == UnanimousDoNothing ==> Voted(valid) == {DoNothing})
            && (c.status != QuorumReached ==> c.decision == DoNothing)
            && (forall a :: a in SAFETY ==> RatioIn(c, a) == Ratio(cfg, valid, a))
  {
    hide Verdicts, ValidOnes, Ratio, ResultsOf, CountStanding, Voted;
    var valid := ValidIn(cfg, m, beliefs, tx, version);
    BestOfWins(cfg, valid, |SAFETY|);
  }

  lemma InferredFacts(ctx: Context)
    ensures Inferred(ctx) in SAFETY && Inferred(ctx) != Recover && Inferred(ctx) != Escalate
    ensures forall d :: ConcreteAction(d, ctx) != Recover
    ensures forall d :: d != Recover ==> ConcreteAction(d, ctx) == d
  {
    assert SAFETY[0] == DoNothing && SAFETY[1] == RetryCapture && SAFETY[2] == RetryPayment;
    assert SAFETY[3] == SwitchProvider && SAFETY[4] == SendPaymentLink;
  }

  /** The ratio that made a quorum for an action: its own, that of RECOVER, or both together. */
  predicate Carries(cfg: RecoveryConfig, valid: seq<Belief>, a: Recommendation) {
    || Ratio(cfg, valid, a) >= cfg.threshold
    || Ratio(cfg, valid, Recover) >= cfg.threshold
    || Ratio(cfg, valid, a) + Ratio(cfg, valid, Recover) >= cfg.threshold
  }

  lemma ResolvedRatio(cfg: RecoveryConfig, m: Memory, beliefs: seq<Belief>, tx: string, version: int, ctx: Context)
    requires Aggregated(cfg, m, beliefs, tx, version).Some?
    ensures var r := Resolved(cfg, Aggregated(cfg, m, beliefs, tx, version).value, ctx);
            var a, valid := ConcreteAction(r.decision, ctx), ValidIn(cfg, m, beliefs, tx, version);
            r.status == QuorumReached && r.supportRatio >= cfg.threshold ==>
              Carries(cfg, valid, a) && |valid| >= cfg.minValidAgents
  {
    hide Aggregated, ValidIn, Ratio, Inferred;
    QuorumFacts(cfg, m, beliefs, tx, version);
    InferredFacts(ctx);
    assert SAFETY[6] == Recover;
  }

  /**
   What votes there are behind an action: a quorum of its own, of RECOVER or of both together,
   by at least the minimum of valid beliefs. Where all weights have one sign both together
   reach the threshold, and where none is negative they do so by weight.
   */
  predicate Backed(cfg: RecoveryConfig, valid: seq<Belief>, a: Recommendation) {
    && Carries(cfg, valid, a) && |valid| >= cfg.minValidAgents
    && (OneSign(cfg) ==> Ratio(cfg, valid, a) + Ratio(cfg, valid, Recover) >= cfg.threshold)
    && (FairWeights(cfg) ==>
          Support(cfg, valid, a) + Support(cfg, valid, Recover) >= cfg.threshold * Total(cfg, valid))
  }

  lemma CarriedBacked(cfg: RecoveryConfig, valid: seq<Belief>, a: Recommendation)
    requires SoundBeliefs(valid) && Carries(cfg, valid, a) && |valid| >= cfg.minValidAgents
    ensures Backed(cfg, valid, a)
  {
    hide Ratio, Support, Total;
    if OneSign(cfg) {
      RatioBetween(cfg, valid, a);
      RatioBetween(cfg, valid, Recover);
    }
    if FairWeights(cfg) {
      BackedBy(cfg, valid, a, cfg.threshold);
    }
  }

  lemma ResolvedBacked(cfg: RecoveryConfig, m: Memory, beliefs: seq<Belief>, tx: string, version: int, ctx: Context)
    requires Aggregated(cfg, m, beliefs, tx, version).Some?
    requires AllPass(cfg, Resolved(cfg, Aggregated(cfg, m, beliefs, tx, version).value, ctx), ctx)
    ensures var r := Resolved(cfg, Aggregated(cfg, m, beliefs, tx, version).value, ctx);
            var a := ConcreteAction(r.decision, ctx);
            Backed(cfg, ValidIn(cfg, m, beliefs, tx, version), a) && Authorised(cfg, a, ctx)
  {
    hide Aggregated, ValidIn, Carries, Backed, Resolved, ConcreteAction, AllPass, Authorised;
    var r := Resolved(cfg, Aggregated(cfg, m, beliefs, tx, version).value, ctx);
    AllPassIff(cfg, r, ctx);
    ResolvedRatio(cfg, m, beliefs, tx, version, ctx);
    ValidIsSound(cfg, m, beliefs, tx, version);
    CarriedBacked(cfg, ValidIn(cfg, m, beliefs, tx, version), ConcreteAction(r.decision, ctx));
  }

  /**
   Whenever the pipeline acts, on whatever route it came to the action: votes and guardrails
   are behind that very action.
   */
  lemma ActionsAreBacked(cfg: RecoveryConfig, m: Memory, beliefs: seq<Belief>, tx: string, version: int,
                         ctx: Context, p: PipelineResult)
    requires Aggregated(cfg, m, beliefs, tx, version).Some?
    requires Outlines(cfg, Aggregated(cfg, m, beliefs, tx, version).value, ctx, tx, version, p) && p.executed
    ensures Backed(cfg, ValidIn(cfg, m, beliefs, tx, version), p.action.value.action)
    ensures Authorised(cfg, p.action.value.action, ctx)
  {
    ActionIsConcrete(cfg, Aggregated(cfg, m, beliefs, tx, version).value, ctx, tx, version, p);
    hide *;
    ResolvedBacked(cfg, m, beliefs, tx, version, ctx);
  }

  lemma ActionIsConcrete(cfg: RecoveryConfig, c: ConsensusResult, ctx: Context, tx: string, version: int,
                         p: PipelineResult)
    requires Outlines(cfg, c, ctx, tx, version, p) && p.executed
    ensures p.consensus == Resolved(cfg, c, ctx) && AllPass(cfg, p.consensus, ctx)
    ensures p.action.value.action == ConcreteAction(p.consensus.decision, ctx)
  {
  }

  lemma ValidIsSound(cfg: RecoveryConfig, m: Memory, beliefs: seq<Belief>, tx: string, version: int)
    ensures SoundBeliefs(ValidIn(cfg, m, beliefs, tx, version))
  {
    ValidAreSound(cfg, m, beliefs, tx, version);
  }

  /** All guardrails hold if and only if a quorum at the threshold stands and the action is authorised. */
  lemma AllPassIff(cfg: RecoveryConfig, r: ConsensusResult, ctx: Context)
    ensures AllPass(cfg, r, ctx) <==>
            && r.status == QuorumReached && r.supportRatio >= cfg.threshold
            && Authorised(cfg, ConcreteAction(r.decision, ctx), ctx)
  {
    hide Inferred;
    var a := ConcreteAction(r.decision, ctx);
    var g := GuardrailsFor(a);
    assert g[0] == KillSwitch && g[1] == ConsensusThreshold && g[2] == ActionAllowlist && g[3] == AttemptLimit;
    assert g[4] == AmountLimit && g[5] == TransactionState && g[6] == Roi;
    assert a == SwitchProvider ==> g[7] == ProviderAllowlist;
    if AllPass(cfg, r, ctx) {
      assert forall i :: 0 <= i < |g| ==> Passes(cfg, r, ctx, g[i]);
    }
    InferredFacts(ctx);
  }

  /**
   What the policy reports of a refusal is the first reason in this order: the kill switch, the
   consensus, the action, the attempts, the amount, the state, the return, the provider.
   */
  lemma RefusedFor(cfg: RecoveryConfig, r: ConsensusResult, ctx: Context, p: PolicyResult)
    requires (p.allowed <==> AllPass(cfg, r, ctx)) && Answers(cfg, r, ctx, p)
    ensures var a := ConcreteAction(r.decision, ctx);
            var consensus := r.status == QuorumReached && r.supportRatio >= cfg.threshold;
            var attempts, amount := ctx.recoveryAttempts < cfg.maxAttempts, ctx.amount <= cfg.maxAmount;
            var open := !ctx.alreadySuccessful && !ctx.alreadyRecovered && ctx.transactionStatus !in TERMINAL_STATUSES;
            var roi := ctx.expectedRoi.Some? && ctx.expectedRoi.value >= cfg.minRoi;
            p.failed ==
              if cfg.killSwitch then KillSwitch
              else if !consensus then ConsensusThreshold
              else if a !in cfg.allowedActions then ActionAllowlist
              else if !attempts then AttemptLimit
              else if !amount then AmountLimit
              else if !open then TransactionState
              else if !roi then Roi
              else if a == SwitchProvider && ctx.targetProvider !in cfg.allowedProviders then ProviderAllowlist
              else NoneFailed
  {
    hide ConcreteAction, AllPass;
    var a := ConcreteAction(r.decision, ctx);
    var g := GuardrailsFor(a);
    assert g[0] == KillSwitch && g[1] == ConsensusThreshold && g[2] == ActionAllowlist && g[3] == AttemptLimit;
    assert g[4] == AmountLimit && g[5] == TransactionState && g[6] == Roi;
    assert a == SwitchProvider ==> g[7] == ProviderAllowlist;
    assert !p.allowed ==> !p.checks[|p.checks| - 1].passed;
  }

  // ---------- Merging RECOVER support ----------

  lemma {:induction false} UnanimousLeavesNothing(cfg: RecoveryConfig, valid: seq<Belief>, a: Recommendation)
    requires forall b :: b in valid ==> b.recommendation == DoNothing
    requires a != DoNothing
    ensures Support(cfg, valid, a) == 0.0 && Ratio(cfg, valid, a) == 0.0
  {
    if |valid| == 0 {
    } else {
      UnanimousLeavesNothing(cfg, valid[..|valid| - 1], a);
      assert valid[|valid| - 1] in valid;
    }
  }

  /** A consensus that counting RECOVER for the inferred action must leave alone. */
  predicate StandsAlone(c: ConsensusResult, ctx: Context) {
    || c.status == InsufficientEvidence
    || c.status == UnanimousDoNothing
    || (c.status == QuorumReached && c.decision != Recover && c.decision != Inferred(ctx))
  }

  /**
   With a threshold above one half, merging RECOVER support never overturns the quorum of
   a third action (or of doing nothing), unanimity for doing nothing, or missing evidence.
   */
  lemma MergeKeepsQuorums(cfg: RecoveryConfig, m: Memory, beliefs: seq<Belief>, tx: string, version: int, ctx: Context)
    requires OneSign(cfg) && cfg.threshold > 0.5
    requires Aggregated(cfg, m, beliefs, tx, version).Some?
    requires StandsAlone(Aggregated(cfg, m, beliefs, tx, version).value, ctx)
    ensures var c := Aggregated(cfg, m, beliefs, tx, version).value; Resolved(cfg, c, ctx) == c
  {
    hide Aggregated, ValidIn, Ratio, Inferred, OneSign, SoundBeliefs;
    var c, valid := Aggregated(cfg, m, beliefs, tx, version).value, ValidIn(cfg, m, beliefs, tx, version);
    var a := Inferred(ctx);
    QuorumFacts(cfg, m, beliefs, tx, version);
    InferredFacts(ctx);
    ValidIsSound(cfg, m, beliefs, tx, version);
    assert SAFETY[6] == Recover;
    if a != DoNothing && c.status == UnanimousDoNothing {
      OnlyDoNothing(valid);
      UnanimousLeavesNothing(cfg, valid, a);
      UnanimousLeavesNothing(cfg, valid, Recover);
    }
    if a != DoNothing && c.status == QuorumReached {
      ThreeRatios(cfg, valid, c.decision, a, Recover);
    }
  }

  lemma OnlyDoNothing(valid: seq<Belief>)
    requires Voted(valid) == {DoNothing}
    ensures forall b :: b in valid ==> b.recommendation == DoNothing
  {
    forall b | b in valid
      ensures b.recommendation == DoNothing
    {
      assert b.recommendation in Voted(valid);
    }
  }

  lemma {:induction false} ThreeWithinTotal(cfg: RecoveryConfig, valid: seq<Belief>, x: Recommendation,
                                            y: Recommendation, z: Recommendation)
    requires FairWeights(cfg) && SoundBeliefs(valid) && x != y && y != z && x != z
    ensures Support(cfg, valid, x) + Support(cfg, valid, y) + Support(cfg, valid, z) <= Total(cfg, valid)
  {
    if |valid| == 0 {
    } else {
      var p, b := valid[..|valid| - 1], valid[|valid| - 1];
      assert b in valid;
      ThreeWithinTotal(cfg, p, x, y, z);
      BackingBounds(cfg, b, b.recommendation);
    }
  }

  lemma FairThreeRatios(cfg: RecoveryConfig, valid: seq<Belief>, x: Recommendation, y: Recommendation,
                        z: Recommendation)
    requires FairWeights(cfg) && SoundBeliefs(valid) && x != y && y != z && x != z
    ensures Ratio(cfg, valid, x) + Ratio(cfg, valid, y) + Ratio(cfg, valid, z) <= 1.0
  {
    hide Support, Total;
    ThreeWithinTotal(cfg, valid, x, y, z);
    SupportBetween(cfg, valid, x);
    SupportBetween(cfg, valid, y);
    SupportBetween(cfg, valid, z);
    var a, b, c, t := Support(cfg, valid, x), Support(cfg, valid, y), Support(cfg, valid, z), Total(cfg, valid);
    if t > 0.0 {
      Quotient(a + b + c, t);
      QuotientSum(a + b, c, t);
      QuotientSum(a, b, t);
    }
  }

  lemma ThreeRatios(cfg: RecoveryConfig, valid: seq<Belief>, x: Recommendation, y: Recommendation, z: Recommendation)
    requires OneSign(cfg) && SoundBeliefs(valid) && x != y && y != z && x != z
    ensures Ratio(cfg, valid, x) + Ratio(cfg, valid, y) + Ratio(cfg, valid, z) <= 1.0
  {
    hide Ratio, SoundBeliefs;
    RatioNegated(cfg, valid, x);
    RatioNegated(cfg, valid, y);
    RatioNegated(cfg, valid, z);
    FairThreeRatios(if FairWeights(cfg) then cfg else Negated(cfg), valid, x, y, z);
  }

  ghost predicate Overturns(cfg: RecoveryConfig, m: Memory, beliefs: seq<Belief>, tx: string, version: int,
                            ctx: Context)
  {
    var c := Aggregated(cfg, m, beliefs, tx, version);
    && c.Some? && c.value.status == QuorumReached && c.value.decision != Recover && c.value.decision != Inferred(ctx)
    && Resolved(cfg, c.value, ctx).decision != c.value.decision
  }

  /** The threshold above one half is what it takes: at or below it some quorum is overturned. */
  lemma MergeOverturnsIff(threshold: real)
    ensures (exists cfg: RecoveryConfig, m, beliefs, tx, version, ctx ::
               OneSign(cfg) && cfg.threshold == threshold && Overturns(cfg, m, beliefs, tx, version, ctx))
            <==> threshold <= 0.5
  {
    hide Aggregated, Resolved;
    if cfg: RecoveryConfig, m, beliefs, tx, version, ctx :|
        OneSign(cfg) && cfg.threshold == threshold && Overturns(cfg, m, beliefs, tx, version, ctx) {
      if threshold > 0.5 {
        MergeKeepsQuorums(cfg, m, beliefs, tx, version, ctx);
      }
    }
    if threshold <= 0.5 {
      var cfg := RecoveryConfig(map["p" := 1.0, "q" := 1.0], threshold, 1, 3, 0.0, 0.0, {}, {}, false, 0.0);
      var x := Belief("1", "p", "t", 1, RetryCapture, 1.0, true, "now");
      var y := Belief("2", "q", "t", 1, Recover, 1.0, true, "now");
      var ctx := Context("payment", "", "", None, None, 0.0, 0, "", "", None, false, false, true, false);
      EvenVoteOverturned(cfg, x, y, ctx);
    }
  }

  lemma BothValid(cfg: RecoveryConfig, m: Memory, x: Belief, y: Belief, tx: string, version: int)
    requires Takes(cfg, m, x, tx, version) && Takes(cfg, m.(seen := m.seen + {x.beliefId}), y, tx, version)
    ensures ValidIn(cfg, m, [x, y], tx, version) == [x, y]
  {
    var v := Verdicts(cfg, m, [x, y], tx, version);
    assert [x, y][..1] == [x] && [x][..0] == [];
    assert Verdicts(cfg, m, [x], tx, version) == [Judged(cfg, m, x, tx, version)];
    assert MemoryAfter(cfg, m, [x], tx, version) == m.(seen := m.seen + {x.beliefId});
    assert v[..1] == [v[0]] && v[..1][..0] == [];
    assert ValidOnes([x], v[..1]) == [x];
  }

  lemma EvenVoteOverturned(cfg: RecoveryConfig, x: Belief, y: Belief, ctx: Context)
    requires cfg.agentWeights == map["p" := 1.0, "q" := 1.0] && cfg.threshold <= 0.5 && cfg.minValidAgents == 1
    requires x == Belief("1", "p", "t", 1, RetryCapture, 1.0, true, "now")
    requires y == Belief("2", "q", "t", 1, Recover, 1.0, true, "now")
    requires Inferred(ctx) == RetryPayment
    ensures OneSign(cfg) && Overturns(cfg, Memory({}, map[], {}), [x, y], "t", 1, ctx)
  {
    hide Inferred, Ratio, BestOf, ValidIn, Support, Takes, Aggregated, Decided, Voted;
    var m := Memory({}, map[], {});
    EvenVoteTaken(cfg, x, y);
    BothValid(cfg, m, x, y, "t", 1);
    EvenSplit(cfg, x, y);
    EvenDecision(cfg, x, y);
    QuorumFacts2(cfg, m, [x, y], "t", 1, RetryCapture);
    QuorumFacts(cfg, m, [x, y], "t", 1);
    EvenSound(cfg, x, y);
    RatioBetween(cfg, [x, y], RetryPayment);
    assert SAFETY[2] == RetryPayment && SAFETY[6] == Recover;
  }

  lemma EvenVoteTaken(cfg: RecoveryConfig, x: Belief, y: Belief)
    requires cfg.agentWeights == map["p" := 1.0, "q" := 1.0]
    requires x == Belief("1", "p", "t", 1, RetryCapture, 1.0, true, "now")
    requires y == Belief("2", "q", "t", 1, Recover, 1.0, true, "now")
    ensures Takes(cfg, Memory({}, map[], {}), x, "t", 1) && Takes(cfg, Memory({"1"}, map[], {}), y, "t", 1)
    ensures {} + {x.beliefId} == {"1"}
  {
  }

  lemma EvenSound(cfg: RecoveryConfig, x: Belief, y: Belief)
    requires cfg.agentWeights == map["p" := 1.0, "q" := 1.0] && x.confidence == 1.0 && y.confidence == 1.0
    ensures FairWeights(cfg) && SoundBeliefs([x, y])
  {
  }

  lemma QuorumFacts2(cfg: RecoveryConfig, m: Memory, beliefs: seq<Belief>, tx: string, version: int, a: Recommendation)
    requires Decided(cfg, ValidIn(cfg, m, beliefs, tx, version)) == Some(Decision(a, QuorumReached))
    ensures var c := Aggregated(cfg, m, beliefs, tx, version);
            c.Some? && c.value.status == QuorumReached && c.value.decision == a
  {
    hide Verdicts, ValidOnes, Decided;
  }

  lemma EvenDecision(cfg: RecoveryConfig, x: Belief, y: Belief)
    requires cfg.threshold <= 0.5 && cfg.minValidAgents == 1
    requires x.recommendation == RetryCapture && y.recommendation == Recover
    requires Ratio(cfg, [x, y], RetryCapture) == 0.5 && Ratio(cfg, [x, y], Recover) == 0.5
    requires Support(cfg, [x, y], RetryCapture) == Support(cfg, [x, y], Recover)
    ensures Decided(cfg, [x, y]) == Some(Decision(RetryCapture, QuorumReached))
  {
    hide Ratio, Support;
    var valid := [x, y];
    assert x in valid && y in valid;
    assert Voted(valid) == {RetryCapture, Recover};
    assert SAFETY[1] == RetryCapture && SAFETY[6] == Recover;
    BestOfWins(cfg, valid, |SAFETY|);
  }
}
