/** What a consensus result reports of the beliefs it was made from. */
module ConsensusReports {
  import opened Collections
  import opened Consensus

  // ---------- Verdicts ----------

  /** For a fitting belief of an agent that is not quarantined: the first thing wrong with it is the reason. */
  lemma ReasonsInOrder(cfg: RecoveryConfig, m: Memory, b: Belief, tx: string, version: int)
    requires b.agentId !in m.quarantined && b.transactionId == tx && b.stateVersion == version
    ensures var r := Judged(cfg, m, b, tx, version).reason;
            var known, isNew := b.agentId in cfg.agentWeights, b.beliefId !in m.seen;
            var inRange := b.confidence >= 0.0 && b.confidence <= 1.0;
            && (r == Some(UnknownAgent) <==> !known)
            && (r == Some(DuplicateBelief) <==> known && !isNew)
            && (r == Some(InvalidConfidence) <==> known && isNew && !inRange)
            && (r == Some(MalformedEvidence) <==> known && isNew && inRange && !b.evidenceIsDict)
            && (r == Some(InvalidTimestamp) <==> known && isNew && inRange && b.evidenceIsDict && b.timestamp == "")
            && (r == None <==> known && isNew && inRange && b.evidenceIsDict && b.timestamp != "")
    ensures var v, before := Judged(cfg, m, b, tx, version), if b.agentId in m.bad then m.bad[b.agentId] else 0;
            && (v.standing == Participating <==> v.reason == None)
            && (v.standing == Rejected <==> v.reason.Some? && before == 0)
            && (v.standing == Quarantined <==> v.reason.Some? && before >= 1)
  {
  }

  /** Quarantine goes before everything else, and then a belief about another state is stale. */
  lemma OtherVerdicts(cfg: RecoveryConfig, m: Memory, b: Belief, tx: string, version: int)
    ensures b.agentId in m.quarantined ==>
              Judged(cfg, m, b, tx, version) == Verdict(Quarantined, Some(AgentQuarantined))
    ensures b.agentId !in m.quarantined && (b.transactionId != tx || b.stateVersion != version) ==>
              Judged(cfg, m, b, tx, version) == Verdict(Stale, Some(StateVersionMismatch))
  {
  }

  // ---------- Counting positions ----------

  /** The positions of a round that were judged to have a standing. */
  function Positions(verdicts: seq<Verdict>, s: Standing): set<nat> {
    set i: nat | i < |verdicts| && verdicts[i].standing == s
  }

  lemma {:induction false} PositionsSnoc(p: seq<Verdict>, v: Verdict, s: Standing)
    ensures |Positions(p + [v], s)| == |Positions(p, s)| + if v.standing == s then 1 else 0
  {
    var before, after := Positions(p, s), Positions(p + [v], s);
    if v.standing == s {
      assert after == before + {|p|};
    } else {
      assert after == before;
    }
  }

  lemma {:induction false} CountedByPosition(results: seq<AgentResult>, verdicts: seq<Verdict>, s: Standing)
    requires |results| == |verdicts|
    requires forall i :: 0 <= i < |results| ==> (results[i].verdict.standing == s <==> verdicts[i].standing == s)
    ensures CountStanding(results, s) == |Positions(verdicts, s)|
  {
    if |results| == 0 {
      assert Positions(verdicts, s) == {};
    } else {
      var r, v, n := results[..|results| - 1], verdicts[..|results| - 1], |results| - 1;
      CountedByPosition(r, v, s);
      assert verdicts == v + [verdicts[n]];
      PositionsSnoc(v, verdicts[n], s);
    }
  }

  lemma {:induction false} ValidByPosition(beliefs: seq<Belief>, verdicts: seq<Verdict>)
    requires |beliefs| == |verdicts|
    ensures |ValidOnes(beliefs, verdicts)| == |Positions(verdicts, Participating)|
  {
    if |beliefs| == 0 {
      assert Positions(verdicts, Participating) == {};
    } else {
      var n := |beliefs| - 1;
      ValidByPosition(beliefs[..n], verdicts[..n]);
      assert verdicts == verdicts[..n] + [verdicts[n]];
      PositionsSnoc(verdicts[..n], verdicts[n], Participating);
    }
  }

  lemma {:induction false} ValidIff(beliefs: seq<Belief>, verdicts: seq<Verdict>, b: Belief)
    requires |beliefs| == |verdicts|
    ensures b in ValidOnes(beliefs, verdicts) <==>
            exists i :: 0 <= i < |beliefs| && beliefs[i] == b && verdicts[i].standing == Participating
  {
    if |beliefs| == 0 {
    } else {
      var n := |beliefs| - 1;
      ValidIff(beliefs[..n], verdicts[..n], b);
      assert forall i :: 0 <= i < n ==> beliefs[..n][i] == beliefs[i] && verdicts[..n][i] == verdicts[i];
    }
  }

  /** The standings that a validator gives; the minority is told apart only afterwards. */
  lemma {:induction false} NoMinorityYet(cfg: RecoveryConfig, m: Memory, beliefs: seq<Belief>, tx: string, version: int)
    ensures forall i :: 0 <= i < |beliefs| ==> Verdicts(cfg, m, beliefs, tx, version)[i].standing != Minority
  {
    if |beliefs| == 0 {
    } else {
      NoMinorityYet(cfg, m, beliefs[..|beliefs| - 1], tx, version);
    }
  }

  lemma {:induction false} PositionsPart(verdicts: seq<Verdict>)
    requires forall i :: 0 <= i < |verdicts| ==> verdicts[i].standing != Minority
    ensures |verdicts| == |Positions(verdicts, Participating)| + |Positions(verdicts, Rejected)|
                          + |Positions(verdicts, Quarantined)| + |Positions(verdicts, Stale)|
  {
    hide Positions;
    if |verdicts| == 0 {
      forall s
        ensures Positions(verdicts, s) == {}
      {
        NoPositions(verdicts, s);
      }
    } else {
      var p, v := verdicts[..|verdicts| - 1], verdicts[|verdicts| - 1];
      assert verdicts == p + [v];
      PositionsPart(p);
      PositionsSnoc(p, v, Participating);
      PositionsSnoc(p, v, Rejected);
      PositionsSnoc(p, v, Quarantined);
      PositionsSnoc(p, v, Stale);
    }
  }

  lemma NoPositions(verdicts: seq<Verdict>, s: Standing)
    requires |verdicts| == 0
    ensures Positions(verdicts, s) == {}
  {
  }

  // ---------- The report ----------

  /** Where two beliefs that participate recommend different actions. */
  ghost predicate Disagree(beliefs: seq<Belief>, verdicts: seq<Verdict>)
    requires |beliefs| == |verdicts|
  {
    exists i, j :: 0 <= i < |beliefs| && 0 <= j < |beliefs|
                   && verdicts[i].standing == Participating && verdicts[j].standing == Participating
                   && beliefs[i].recommendation != beliefs[j].recommendation
  }

  lemma ConflictsIff(beliefs: seq<Belief>, verdicts: seq<Verdict>)
    requires |beliefs| == |verdicts|
    ensures |Voted(ValidOnes(beliefs, verdicts))| > 1 <==> Disagree(beliefs, verdicts)
  {
    hide ValidOnes;
    var valid := ValidOnes(beliefs, verdicts);
    forall b
      ensures b in valid <==>
              exists i :: 0 <= i < |beliefs| && beliefs[i] == b && verdicts[i].standing == Participating
    {
      ValidIff(beliefs, verdicts, b);
    }
    if Disagree(beliefs, verdicts) {
      var i, j :| 0 <= i < |beliefs| && 0 <= j < |beliefs|
                  && verdicts[i].standing == Participating && verdicts[j].standing == Participating
                  && beliefs[i].recommendation != beliefs[j].recommendation;
      assert beliefs[i] in valid && beliefs[j] in valid;
      TwoElements(Voted(valid), beliefs[i].recommendation, beliefs[j].recommendation);
    }
    if |Voted(valid)| > 1 {
      var x :| x in Voted(valid);
      var y := AnotherElement(Voted(valid), x);
      var b :| b in valid && b.recommendation == x;
      var c :| c in valid && c.recommendation == y;
    }
  }

  lemma TwoElements(s: set<Recommendation>, x: Recommendation, y: Recommendation)
    requires x in s && y in s && x != y
    ensures |s| > 1
  {
    assert y in s - {x};
    assert |s - {x}| == |s| - 1;
  }

  lemma AnotherElement(s: set<Recommendation>, x: Recommendation) returns (y: Recommendation)
    requires |s| > 1 && x in s
    ensures y in s && y != x
  {
    assert |s - {x}| == |s| - 1 > 0;
    y :| y in s - {x};
  }

  /** The result at one position, from the belief and the verdict there and the decision. */
  predicate ReportsAt(r: AgentResult, b: Belief, v: Verdict, decision: Recommendation) {
    && r.agentId == b.agentId && r.beliefId == b.beliefId
    && r.recommendation == b.recommendation && r.confidence == b.confidence
    && r.verdict.reason == v.reason
    && (r.verdict.standing == Minority <==> v.standing == Participating && b.recommendation != decision)
    && (r.verdict.standing != Minority ==> r.verdict.standing == v.standing)
  }

  /**
   Whatever came before: a result reports each belief at its own position with the verdict's
   reason, moves to the minority just who participated for another action, counts positions by
   their verdicts, and sees a conflict just where two participants disagree.
   */
  lemma ReportTells(cfg: RecoveryConfig, m: Memory, beliefs: seq<Belief>, tx: string, version: int)
    requires Aggregated(cfg, m, beliefs, tx, version).Some?
    ensures var c, v := Aggregated(cfg, m, beliefs, tx, version).value, Verdicts(cfg, m, beliefs, tx, version);
            && c.transactionId == tx && c.stateVersion == version
            && c.threshold == cfg.threshold && c.minimumCount == cfg.minValidAgents
            && |c.results| == |beliefs| == c.received
            && (forall i :: 0 <= i < |beliefs| ==> ReportsAt(c.results[i], beliefs[i], v[i], c.decision))
            && c.validCount == |Positions(v, Participating)|
            && c.rejected == |Positions(v, Rejected)| && c.quarantined == |Positions(v, Quarantined)|
            && c.received == c.validCount + c.rejected + c.quarantined + |Positions(v, Stale)|
            && (c.conflicts <==> Disagree(beliefs, v))
  {
    hide Verdicts, ValidOnes, Decided, CountStanding, RatiosOf, Voted, Positions, Disagree;
    var c, v := Aggregated(cfg, m, beliefs, tx, version).value, Verdicts(cfg, m, beliefs, tx, version);
    NoMinorityYet(cfg, m, beliefs, tx, version);
    PositionsPart(v);
    ValidByPosition(beliefs, v);
    ConflictsIff(beliefs, v);
    CountedByPosition(c.results, v, Rejected);
    CountedByPosition(c.results, v, Quarantined);
  }

  // ---------- The decision ----------

  /** From the safest to the boldest. */
  const FROM_SAFEST: seq<Recommendation> :=
    [DoNothing, RetryCapture, RetryPayment, SwitchProvider, SendPaymentLink, Escalate, Recover]

  ghost predicate Safer(a: Recommendation, b: Recommendation) {
    exists i, j :: 0 <= i < j < |FROM_SAFEST| && FROM_SAFEST[i] == a && FROM_SAFEST[j] == b
  }

  /** a comes before b: by ratio, then by support, then by being safer. */
  ghost predicate Prevails(cfg: RecoveryConfig, valid: seq<Belief>, a: Recommendation, b: Recommendation) {
    || Ratio(cfg, valid, b) < Ratio(cfg, valid, a)
    || (Ratio(cfg, valid, b) == Ratio(cfg, valid, a) && Support(cfg, valid, b) < Support(cfg, valid, a))
    || (Ratio(cfg, valid, b) == Ratio(cfg, valid, a) && Support(cfg, valid, b) == Support(cfg, valid, a) && Safer(a, b))
  }

  lemma RankIsSafety(a: Recommendation, b: Recommendation)
    requires a in SAFETY && b in SAFETY && Rank(a) < Rank(b)
    ensures Safer(a, b)
  {
    assert FROM_SAFEST[Rank(a)] == a && FROM_SAFEST[Rank(b)] == b;
  }

  /**
   With votes of the safety order alone: a quorum is reached if and only if enough beliefs are
   valid, not all for nothing, and some voted action reaches the threshold; it is for the one
   voted action at the threshold that prevails over all others there.
   */
  lemma QuorumPrevails(cfg: RecoveryConfig, valid: seq<Belief>)
    requires forall b :: b in valid ==> b.recommendation in FROM_SAFEST
    ensures Decided(cfg, valid).Some?
    ensures var d := Decided(cfg, valid).value;
            && (d.status == QuorumReached <==>
                && |valid| >= cfg.minValidAgents && Voted(valid) != {DoNothing}
                && exists a :: a in Voted(valid) && Ratio(cfg, valid, a) >= cfg.threshold)
            && (d.status == QuorumReached ==>
                  && d.action in Voted(valid) && Ratio(cfg, valid, d.action) >= cfg.threshold
                  && forall a :: a in Voted(valid) && Ratio(cfg, valid, a) >= cfg.threshold && a != d.action ==>
                                   Prevails(cfg, valid, d.action, a))
            && (d.status != QuorumReached ==> d.action == DoNothing)
  {
    hide Ratio, Support, BestOf;
    assert FROM_SAFEST == SAFETY;
    BestOfWins(cfg, valid, |SAFETY|);
    var best := BestOf(cfg, valid, |SAFETY|);
    forall a | a in Voted(valid)
      ensures a in SAFETY && Rank(a) < |SAFETY| && SAFETY[Rank(a)] == a
    {
    }
    if best.Some? {
      forall a | a in Voted(valid) && Reaches(cfg, valid, a) && a != best.value
        ensures Prevails(cfg, valid, best.value, a)
      {
        assert Beats(cfg, valid, best.value, a);
        if Rank(best.value) < Rank(a) {
          RankIsSafety(best.value, a);
        }
      }
    }
  }
}
