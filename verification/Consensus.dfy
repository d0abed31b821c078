/** Validating the agents' beliefs and aggregating them into one decision. */
module Consensus {
  import opened Collections

  datatype Recommendation =
    | RetryPayment | RetryCapture | SwitchProvider | SettlementRetry | SettlementEscalate
    | Recover | SendPaymentLink | Escalate | DoNothing

  datatype Belief = Belief(
    beliefId: string, agentId: string, transactionId: string, stateVersion: int,
    recommendation: Recommendation, confidence: real, evidenceIsDict: bool, timestamp: string)

  datatype RecoveryConfig = RecoveryConfig(
    agentWeights: map<string, real>, threshold: real, minValidAgents: int,
    maxAttempts: int, maxAmount: real, minRoi: real, allowedProviders: set<string>,
    allowedActions: set<Recommendation>, killSwitch: bool, recoveryCost: real)

  datatype Reason =
    | AgentQuarantined | StateVersionMismatch | UnknownAgent | DuplicateBelief
    | InvalidConfidence | MalformedEvidence | InvalidTimestamp

  datatype Standing = Participating | Minority | Stale | Rejected | Quarantined

  datatype Verdict = Verdict(standing: Standing, reason: Option<Reason>)

  /** What the validator remembers from one call to the next. */
  datatype Memory = Memory(seen: set<string>, bad: map<string, nat>, quarantined: set<string>)

  // ---------- Validation ----------

  /** The first thing wrong with a belief, given the belief ids seen so far. */
  function Fault(cfg: RecoveryConfig, m: Memory, b: Belief): Option<Reason> {
    if b.agentId !in cfg.agentWeights then Some(UnknownAgent)
    else if b.beliefId in m.seen then Some(DuplicateBelief)
    else if !(0.0 <= b.confidence <= 1.0) then Some(InvalidConfidence)
    else if !b.evidenceIsDict then Some(MalformedEvidence)
    else if b.timestamp == "" then Some(InvalidTimestamp)
    else None
  }

  function BadCount(m: Memory, agent: string): nat {
    if agent in m.bad then m.bad[agent] else 0
  }

  predicate Fits(b: Belief, tx: string, version: int) {
    b.transactionId == tx && b.stateVersion == version
  }

  function Judged(cfg: RecoveryConfig, m: Memory, b: Belief, tx: string, version: int): Verdict {
    if b.agentId in m.quarantined then Verdict(Quarantined, Some(AgentQuarantined))
    else if !Fits(b, tx, version) then Verdict(Stale, Some(StateVersionMismatch))
    else if Fault(cfg, m, b).Some? then
      Verdict(if BadCount(m, b.agentId) + 1 >= 2 then Quarantined else Rejected, Fault(cfg, m, b))
    else Verdict(Participating, None)
  }

  predicate Faulty(cfg: RecoveryConfig, m: Memory, b: Belief, tx: string, version: int) {
    b.agentId !in m.quarantined && Fits(b, tx, version) && Fault(cfg, m, b).Some?
  }

  predicate Takes(cfg: RecoveryConfig, m: Memory, b: Belief, tx: string, version: int) {
    Judged(cfg, m, b, tx, version).standing == Participating
  }

  function Remembered(cfg: RecoveryConfig, m: Memory, b: Belief, tx: string, version: int): Memory {
    if Faulty(cfg, m, b, tx, version) then
      var n := BadCount(m, b.agentId) + 1;
      Memory(m.seen, m.bad[b.agentId := n], if n >= 2 then m.quarantined + {b.agentId} else m.quarantined)
    else if Takes(cfg, m, b, tx, version) then m.(seen := m.seen + {b.beliefId})
    else m
  }

  function MemoryAfter(cfg: RecoveryConfig, m: Memory, beliefs: seq<Belief>, tx: string, version: int): Memory {
    if |beliefs| == 0 then m
    else
      Remembered(cfg, MemoryAfter(cfg, m, beliefs[..|beliefs| - 1], tx, version), beliefs[|beliefs| - 1], tx, version)
  }

  function Verdicts(cfg: RecoveryConfig, m: Memory, beliefs: seq<Belief>, tx: string, version: int): (r: seq<Verdict>)
    ensures |r| == |beliefs|
  {
    if |beliefs| == 0 then []
    else
      var p, b := beliefs[..|beliefs| - 1], beliefs[|beliefs| - 1];
      Verdicts(cfg, m, p, tx, version) + [Judged(cfg, MemoryAfter(cfg, m, p, tx, version), b, tx, version)]
  }

  // ---------- Aggregation ----------

  /** The beliefs that participate. */
  function ValidOnes(beliefs: seq<Belief>, verdicts: seq<Verdict>): seq<Belief>
    requires |beliefs| == |verdicts|
  {
    if |beliefs| == 0 then []
    else
      var n := |beliefs| - 1;
      ValidOnes(beliefs[..n], verdicts[..n]) + (if verdicts[n].standing == Participating then [beliefs[n]] else [])
  }

  function WeightOf(cfg: RecoveryConfig, agent: string): real {
    if agent in cfg.agentWeights then cfg.agentWeights[agent] else 0.0
  }

  function Weighing(cfg: RecoveryConfig): Belief -> real {
    (b: Belief) => WeightOf(cfg, b.agentId)
  }

  function Backing(cfg: RecoveryConfig, a: Recommendation): Belief -> real {
    (b: Belief) => if b.recommendation == a then WeightOf(cfg, b.agentId) * b.confidence else 0.0
  }

  function Total(cfg: RecoveryConfig, valid: seq<Belief>): real {
    SumBy(Weighing(cfg), valid)
  }

  function Support(cfg: RecoveryConfig, valid: seq<Belief>, a: Recommendation): real {
    SumBy(Backing(cfg, a), valid)
  }

  function Ratio(cfg: RecoveryConfig, valid: seq<Belief>, a: Recommendation): real {
    if Total(cfg, valid) != 0.0 then Support(cfg, valid, a) / Total(cfg, valid) else 0.0
  }

  const SAFETY: seq<Recommendation> :=
    [DoNothing, RetryCapture, RetryPayment, SwitchProvider, SendPaymentLink, Escalate, Recover]

  function Voted(valid: seq<Belief>): set<Recommendation> {
    set b | b in valid :: b.recommendation
  }

  /** The position of an action in the safety order; 7 for the two actions that are not in it. */
  function Rank(a: Recommendation): (i: nat)
    ensures a in SAFETY <==> i < 7
    ensures a in SAFETY ==> SAFETY[i] == a
  {
    match a
    case DoNothing => 0 case RetryCapture => 1 case RetryPayment => 2 case SwitchProvider => 3
    case SendPaymentLink => 4 case Escalate => 5 case Recover => 6
    case SettlementRetry => 7 case SettlementEscalate => 7
  }

  /** The order of the keys that `max` compares: ratio, then support, then safety. */
  predicate Beats(cfg: RecoveryConfig, valid: seq<Belief>, a: Recommendation, b: Recommendation) {
    var ra, rb, sa, sb := Ratio(cfg, valid, a), Ratio(cfg, valid, b), Support(cfg, valid, a), Support(cfg, valid, b);
    ra > rb || (ra == rb && (sa > sb || (sa == sb && Rank(a) < Rank(b))))
  }

  predicate Reaches(cfg: RecoveryConfig, valid: seq<Belief>, a: Recommendation) {
    Ratio(cfg, valid, a) >= cfg.threshold
  }

  /** The best of the voted actions among the first n of the safety order that reach the threshold. */
  function BestOf(cfg: RecoveryConfig, valid: seq<Belief>, n: nat): Option<Recommendation>
    requires n <= |SAFETY|
  {
    if n == 0 then None
    else
      var best, a := BestOf(cfg, valid, n - 1), SAFETY[n - 1];
      if a in Voted(valid) && Reaches(cfg, valid, a) && (best == None || Beats(cfg, valid, a, best.value))
      then Some(a) else best
  }

  datatype DecisionStatus = InsufficientEvidence | UnanimousDoNothing | QuorumReached | NoQuorum

  datatype Decision = Decision(action: Recommendation, status: DecisionStatus)

  /** None stands for the KeyError that a vote for a settlement action ends in. */
  function Decided(cfg: RecoveryConfig, valid: seq<Belief>): Option<Decision> {
    if |valid| < cfg.minValidAgents then Some(Decision(DoNothing, InsufficientEvidence))
    else if Voted(valid) == {DoNothing} then Some(Decision(DoNothing, UnanimousDoNothing))
    else if exists a :: a in Voted(valid) && a !in SAFETY then None
    else
      match BestOf(cfg, valid, |SAFETY|)
      case Some(a) => Some(Decision(a, QuorumReached))
      case None => Some(Decision(DoNothing, NoQuorum))
  }

  datatype AgentResult = AgentResult(
    agentId: string, beliefId: string, recommendation: Recommendation, confidence: real, verdict: Verdict)

  datatype ConsensusResult = ConsensusResult(
    transactionId: string, stateVersion: int, decision: Recommendation, status: DecisionStatus,
    supportRatio: real, threshold: real, validCount: nat, minimumCount: int, received: nat,
    rejected: nat, quarantined: nat, conflicts: bool, ratios: map<Recommendation, real>,
    results: seq<AgentResult>)

  function ResultOf(b: Belief, v: Verdict): AgentResult {
    AgentResult(b.agentId, b.beliefId, b.recommendation, b.confidence, v)
  }

  /** Once the decision is known, who participated for something else was in the minority. */
  function Settled(r: AgentResult, decision: Recommendation): AgentResult {
    if r.verdict.standing == Participating && r.recommendation != decision
    then r.(verdict := r.verdict.(standing := Minority)) else r
  }

  function ResultsOf(beliefs: seq<Belief>, verdicts: seq<Verdict>, decision: Recommendation): (r: seq<AgentResult>)
    requires |beliefs| == |verdicts|
    ensures |r| == |beliefs|
  {
    seq(|beliefs|, i requires 0 <= i < |beliefs| && |beliefs| == |verdicts| =>
      Settled(ResultOf(beliefs[i], verdicts[i]), decision))
  }

  function CountStanding(results: seq<AgentResult>, s: Standing): nat {
    multiset(Map((r: AgentResult) => r.verdict.standing, results))[s]
  }

  function RatiosOf(cfg: RecoveryConfig, valid: seq<Belief>): map<Recommendation, real> {
    map a | a in SAFETY :: Ratio(cfg, valid, a)
  }

  function Report(cfg: RecoveryConfig, beliefs: seq<Belief>, verdicts: seq<Verdict>, tx: string, version: int,
                  d: Decision): ConsensusResult
    requires |beliefs| == |verdicts|
  {
    var valid := ValidOnes(beliefs, verdicts);
    var results := ResultsOf(beliefs, verdicts, d.action);
    ConsensusResult(
      tx, version, d.action, d.status, Ratio(cfg, valid, d.action), cfg.threshold, |valid|, cfg.minValidAgents,
      |beliefs|, CountStanding(results, Rejected), CountStanding(results, Quarantined),
      |Voted(valid)| > 1, RatiosOf(cfg, valid), results)
  }

  function Aggregated(cfg: RecoveryConfig, m: Memory, beliefs: seq<Belief>, tx: string,
                      version: int): Option<ConsensusResult>
  {
    var verdicts := Verdicts(cfg, m, beliefs, tx, version);
    match Decided(cfg, ValidOnes(beliefs, verdicts))
    case None => None
    case Some(d) => Some(Report(cfg, beliefs, verdicts, tx, version, d))
  }

  // ---------- The validator and the aggregation as they run ----------

  class BeliefValidator {
    const cfg: RecoveryConfig
    var seen: set<string>
    var bad: map<string, nat>
    var quarantined: set<string>

    ghost function State(): Memory
      reads this
    {
      Memory(seen, bad, quarantined)
    }

    constructor (cfg: RecoveryConfig)
      ensures this.cfg == cfg && State() == Memory({}, map[], {})
    {
      this.cfg := cfg;
      seen, bad, quarantined := {}, map[], {};
    }

    method Validate(b: Belief, tx: string, version: int) returns (v: Verdict)
      modifies this
      ensures v == Judged(cfg, old(State()), b, tx, version)
      ensures State() == Remembered(cfg, old(State()), b, tx, version)
    {
      if b.agentId in quarantined {
        return Verdict(Quarantined, Some(AgentQuarantined));
      }
      if b.transactionId != tx || b.stateVersion != version {
        return Verdict(Stale, Some(StateVersionMismatch));
      }
      var reason: Option<Reason> := None;
      if b.agentId !in cfg.agentWeights {
        reason := Some(UnknownAgent);
      } else if b.beliefId in seen {
        reason := Some(DuplicateBelief);
      } else if !(0.0 <= b.confidence <= 1.0) {
        reason := Some(InvalidConfidence);
      } else if !b.evidenceIsDict {
        reason := Some(MalformedEvidence);
      } else if b.timestamp == "" {
        reason := Some(InvalidTimestamp);
      }
      if reason.Some? {
        bad := bad[b.agentId := (if b.agentId in bad then bad[b.agentId] else 0) + 1];
        if bad[b.agentId] >= 2 {
          quarantined := quarantined + {b.agentId};
          return Verdict(Quarantined, reason);
        }
        return Verdict(Rejected, reason);
      }
      seen := seen + {b.beliefId};
      v := Verdict(Participating, None);
    }
  }

  /** Each action once, in the order of its first vote. */
  function VoteOrder(valid: seq<Belief>): (r: seq<Recommendation>)
    ensures forall a :: a in r <==> a in Voted(valid)
  {
    if |valid| == 0 then []
    else
      var r := VoteOrder(valid[..|valid| - 1]);
      assert valid == valid[..|valid| - 1] + [valid[|valid| - 1]];
      if valid[|valid| - 1].recommendation in r then r else r + [valid[|valid| - 1].recommendation]
  }

  class WeightedConsensus {
    const cfg: RecoveryConfig
    const validator: BeliefValidator

    constructor (cfg: RecoveryConfig)
      ensures this.cfg == cfg && validator.cfg == cfg && fresh(validator) && validator.State() == Memory({}, map[], {})
    {
      this.cfg := cfg;
      validator := new BeliefValidator(cfg);
    }

    method JudgeAll(beliefs: seq<Belief>, tx: string, version: int) returns (verdicts: seq<Verdict>, valid: seq<Belief>)
      requires validator.cfg == cfg
      modifies validator
      ensures verdicts == Verdicts(cfg, old(validator.State()), beliefs, tx, version)
      ensures valid == ValidOnes(beliefs, verdicts)
      ensures validator.State() == MemoryAfter(cfg, old(validator.State()), beliefs, tx, version)
    {
      verdicts, valid := [], [];
      ghost var m := validator.State();
      for i := 0 to |beliefs|
        invariant verdicts == Verdicts(cfg, m, beliefs[..i], tx, version)
        invariant valid == ValidOnes(beliefs[..i], verdicts)
        invariant validator.State() == MemoryAfter(cfg, m, beliefs[..i], tx, version)
      {
        assert beliefs[..i + 1][..i] == beliefs[..i];
        var v := validator.Validate(beliefs[i], tx, version);
        assert (verdicts + [v])[..i] == verdicts;
        verdicts := verdicts + [v];
        if v.standing == Participating {
          valid := valid + [beliefs[i]];
        }
      }
      assert beliefs[..|beliefs|] == beliefs;
    }

    /** `None` is the KeyError of the source; the validator has been updated all the same. */
    method Aggregate(beliefs: seq<Belief>, tx: string, version: int) returns (r: Option<ConsensusResult>)
      requires validator.cfg == cfg
      modifies validator
      ensures r == Aggregated(cfg, old(validator.State()), beliefs, tx, version)
      ensures validator.State() == MemoryAfter(cfg, old(validator.State()), beliefs, tx, version)
    {
      hide Verdicts, MemoryAfter, ValidOnes, Decided, Report;
      var verdicts, valid := JudgeAll(beliefs, tx, version);
      var d := Decide(cfg, valid);
      r := if d.Some? then Some(Report(cfg, beliefs, verdicts, tx, version, d.value)) else None;
    }
  }

  method Decide(cfg: RecoveryConfig, valid: seq<Belief>) returns (d: Option<Decision>)
    ensures d == Decided(cfg, valid)
  {
    var counts := VoteOrder(valid);
    OneVote(valid);
    if |valid| < cfg.minValidAgents {
      return Some(Decision(DoNothing, InsufficientEvidence));
    }
    if |counts| == 1 && DoNothing in counts {
      return Some(Decision(DoNothing, UnanimousDoNothing));
    }
    if exists a :: a in counts && a !in SAFETY {
      return None;
    }
    var best := BestVoted(cfg, valid, counts);
    d := Some(if best.Some? then Decision(best.value, QuorumReached) else Decision(DoNothing, NoQuorum));
  }

  /** Scanning the votes in the order they came in finds the action the safety order singles out. */
  method BestVoted(cfg: RecoveryConfig, valid: seq<Belief>, counts: seq<Recommendation>)
    returns (best: Option<Recommendation>)
    requires forall a :: a in counts <==> a in Voted(valid)
    requires forall a :: a in counts ==> a in SAFETY
    ensures best == BestOf(cfg, valid, |SAFETY|)
  {
    best := None;
    for i := 0 to |counts|
      invariant best.None? ==> forall a :: a in counts[..i] ==> !Reaches(cfg, valid, a)
      invariant best.Some? ==> best.value in counts[..i] && Reaches(cfg, valid, best.value)
      invariant best.Some? ==> forall a :: a in counts[..i] && Reaches(cfg, valid, a) && a != best.value ==>
                                             Beats(cfg, valid, best.value, a)
    {
      var a := counts[i];
      assert counts[..i + 1] == counts[..i] + [a];
      if Reaches(cfg, valid, a) && (best.None? || Beats(cfg, valid, a, best.value)) {
        best := Some(a);
      }
    }
    assert counts[..|counts|] == counts;
    BestOfWins(cfg, valid, |SAFETY|);
    var b := BestOf(cfg, valid, |SAFETY|);
    if b.Some? && best.Some? {
      NotBoth(cfg, valid, best.value, b.value);
    }
    if best.Some? {
      assert SAFETY[Rank(best.value)] == best.value;
    }
  }

  lemma NotBoth(cfg: RecoveryConfig, valid: seq<Belief>, a: Recommendation, b: Recommendation)
    ensures !(Beats(cfg, valid, a, b) && Beats(cfg, valid, b, a))
  {
  }

  lemma BeatsTransitive(cfg: RecoveryConfig, valid: seq<Belief>,
                        a: Recommendation, b: Recommendation, c: Recommendation)
    requires Beats(cfg, valid, a, b) && Beats(cfg, valid, b, c)
    ensures Beats(cfg, valid, a, c)
  {
    hide Ratio, Support, Rank;
  }

  lemma BeatsTotal(cfg: RecoveryConfig, valid: seq<Belief>, a: Recommendation, b: Recommendation)
    requires Rank(a) != Rank(b)
    ensures Beats(cfg, valid, a, b) || Beats(cfg, valid, b, a)
  {
    hide Ratio, Support, Rank;
  }

  lemma RankOf(i: nat)
    requires i < |SAFETY|
    ensures Rank(SAFETY[i]) == i
  {
  }

  lemma {:induction false} BestOfWins(cfg: RecoveryConfig, valid: seq<Belief>, n: nat)
    requires n <= |SAFETY|
    ensures var best := BestOf(cfg, valid, n);
            && (best.None? <==>
                forall i :: 0 <= i < n ==> !(SAFETY[i] in Voted(valid) && Reaches(cfg, valid, SAFETY[i])))
            && (best.Some? ==>
                  && Rank(best.value) < n && best.value in Voted(valid) && Reaches(cfg, valid, best.value)
                  && forall a :: Rank(a) < n && a in Voted(valid) && Reaches(cfg, valid, a) && a != best.value ==>
                                   Beats(cfg, valid, best.value, a))
  {
    hide Voted, Reaches, Beats, Rank;
    if n == 0 {
    } else {
      var before, a := BestOf(cfg, valid, n - 1), SAFETY[n - 1];
      BestOfWins(cfg, valid, n - 1);
      RankOf(n - 1);
      if before.Some? {
        BeatsTotal(cfg, valid, a, before.value);
      }
      forall x | Rank(x) < n && x in Voted(valid) && Reaches(cfg, valid, x)
                 && BestOf(cfg, valid, n).Some? && x != BestOf(cfg, valid, n).value
        ensures Beats(cfg, valid, BestOf(cfg, valid, n).value, x)
      {
        assert SAFETY[Rank(x)] == x;
        if Rank(x) < n - 1 && before.Some? && BestOf(cfg, valid, n) != before && x != before.value {
          BeatsTransitive(cfg, valid, a, before.value, x);
        }
      }
    }
  }

  lemma OneVote(valid: seq<Belief>)
    ensures |VoteOrder(valid)| == 1 && DoNothing in VoteOrder(valid) <==> Voted(valid) == {DoNothing}
  {
    var r := VoteOrder(valid);
    VoteOrderDistinct(valid);
    assert NoRepeats(r);
    if |r| == 1 && DoNothing in r {
      forall a | a in Voted(valid)
        ensures a == DoNothing
      {
        assert a in r;
      }
    }
    if Voted(valid) == {DoNothing} {
      assert |r| > 1 ==> r[0] != r[1];
      assert DoNothing in r;
      assert forall i :: 0 <= i < |r| ==> r[i] in r;
    }
  }

  predicate NoRepeats(r: seq<Recommendation>) {
    forall i, j :: 0 <= i < j < |r| ==> r[i] != r[j]
  }

  lemma {:induction false} VoteOrderDistinct(valid: seq<Belief>)
    ensures NoRepeats(VoteOrder(valid))
  {
    if |valid| == 0 {
    } else {
      var r, a := VoteOrder(valid[..|valid| - 1]), valid[|valid| - 1].recommendation;
      VoteOrderDistinct(valid[..|valid| - 1]);
      assert a !in r ==> NoRepeats(r + [a]);
    }
  }
}
