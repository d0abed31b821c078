/** Merging RECOVER support keeps quorums for all votes just where the agents' weights have one sign. */
module MergeSigns {
  import opened Collections
  import opened BatchIds
  import opened Consensus
  import opened ConsensusTheorems
  import opened Pipeline
  import opened PipelineTheorems

  // ---------- A crowd of votes ----------

  /** n agents' beliefs for a capture retry, n for RECOVER, and k against which only weigh on the total. */
  function Member(p: string, q: string, n: nat, i: nat): Belief {
    Plain(Decimal(i), if i < 2 * n then q else p,
          if i < n then RetryCapture else if i < 2 * n then Recover else DoNothing,
          if i < 2 * n then 1.0 else 0.0)
  }

  function Crowd(p: string, q: string, n: nat, k: nat): seq<Belief> {
    seq(2 * n + k, i requires 0 <= i < 2 * n + k => Member(p, q, n, i))
  }

  lemma CrowdPlain(cfg: RecoveryConfig, p: string, q: string, n: nat, k: nat)
    requires p in cfg.agentWeights && q in cfg.agentWeights
    ensures AllPlain(cfg, Crowd(p, q, n, k))
  {
    hide Decimal;
    var crowd := Crowd(p, q, n, k);
    forall i, j | 0 <= i < j < |crowd|
      ensures crowd[i].beliefId != crowd[j].beliefId
    {
      ValueOfDecimal(i);
      ValueOfDecimal(j);
    }
  }

  lemma {:induction false} SumSame(f: Belief -> real, s: seq<Belief>, x: real)
    requires forall i :: 0 <= i < |s| ==> f(s[i]) == x
    ensures SumBy(f, s) == |s| as real * x
  {
    if |s| == 0 {
    } else {
      SumSame(f, s[..|s| - 1], x);
      assert |s| as real * x == (|s| - 1) as real * x + x;
    }
  }

  lemma SumOfSlice(f: Belief -> real, s: seq<Belief>, lo: nat, hi: nat, len: nat, x: real)
    requires lo <= hi <= |s| && hi - lo == len && forall i :: lo <= i < hi ==> f(s[i]) == x
    ensures SumBy(f, s[lo..hi]) == len as real * x
  {
    hide SumBy;
    forall i | 0 <= i < hi - lo
      ensures f(s[lo..hi][i]) == x
    {
      assert s[lo..hi][i] == s[lo + i];
    }
    SumSame(f, s[lo..hi], x);
  }

  lemma SumParts(f: Belief -> real, s: seq<Belief>, n: nat, x: real, y: real, z: real)
    requires 2 * n <= |s|
    requires forall i :: 0 <= i < |s| ==> f(s[i]) == if i < n then x else if i < 2 * n then y else z
    ensures SumBy(f, s) == n as real * x + n as real * y + (|s| - 2 * n) as real * z
  {
    hide SumBy;
    SumOfSlice(f, s, 0, n, n, x);
    SumOfSlice(f, s, n, 2 * n, n, y);
    SumOfSlice(f, s, 2 * n, |s|, |s| - 2 * n, z);
    SumOfThree(f, s, n, 2 * n);
  }

  lemma SumOfThree(f: Belief -> real, s: seq<Belief>, lo: nat, hi: nat)
    requires lo <= hi <= |s|
    ensures SumBy(f, s) == SumBy(f, s[0..lo]) + SumBy(f, s[lo..hi]) + SumBy(f, s[hi..|s|])
  {
    hide SumBy;
    assert s == s[0..lo] + (s[lo..hi] + s[hi..|s|]);
    SumByConcat(f, s[0..lo], s[lo..hi] + s[hi..|s|]);
    SumByConcat(f, s[lo..hi], s[hi..|s|]);
  }

  lemma CrowdSums(cfg: RecoveryConfig, p: string, q: string, n: nat, k: nat)
    requires p in cfg.agentWeights && q in cfg.agentWeights
    ensures var crowd, w := Crowd(p, q, n, k), cfg.agentWeights[q];
            && Total(cfg, crowd) == n as real * w + n as real * w + k as real * cfg.agentWeights[p]
            && Support(cfg, crowd, RetryCapture) == n as real * w
            && Support(cfg, crowd, Recover) == n as real * w
            && Support(cfg, crowd, RetryPayment) == 0.0 && Support(cfg, crowd, DoNothing) == 0.0
  {
    hide Decimal, SumBy;
    var crowd, w := Crowd(p, q, n, k), cfg.agentWeights[q];
    SumParts(Weighing(cfg), crowd, n, w, w, cfg.agentWeights[p]);
    SumParts(Backing(cfg, RetryCapture), crowd, n, w, 0.0, 0.0);
    SumParts(Backing(cfg, Recover), crowd, n, 0.0, w, 0.0);
    SumParts(Backing(cfg, RetryPayment), crowd, n, 0.0, 0.0, 0.0);
    SumParts(Backing(cfg, DoNothing), crowd, n, 0.0, 0.0, 0.0);
  }

  // ---------- Its size ----------

  /** Enough for the one side to carry the threshold against any total up to the other's weight. */
  lemma EnoughVotes(w: real, bound: real, least: int) returns (n: nat)
    requires w > 0.0 && bound >= 0.0
    ensures n > 0 && n >= least && n as real * w >= bound
  {
    var m := (bound / w).Floor + 1;
    Archimedes(w, bound);
    n := if m >= least then m else least;
    Larger(m, n, w);
  }

  lemma Archimedes(w: real, bound: real)
    requires w > 0.0 && bound >= 0.0
    ensures (bound / w).Floor >= 0
    ensures ((bound / w).Floor + 1) as real * w >= bound
  {
    var r := bound / w;
    assert r >= 0.0 && r * w == bound;
    Product(r, (r.Floor + 1) as real, w);
  }

  lemma Product(x: real, y: real, w: real)
    requires x <= y && w >= 0.0
    ensures x * w <= y * w
  {
  }

  lemma Larger(m: int, n: int, w: real)
    requires m <= n && w >= 0.0
    ensures m as real * w <= n as real * w
  {
    Product(m as real, n as real, w);
  }

  /** As many times as it can be taken off and leave something. */
  lemma LeastLeft(x: real, r: real) returns (k: nat)
    requires x > 0.0 && r > 0.0
    ensures 0.0 < x - k as real * r <= r
  {
    var d := x / r;
    assert d > 0.0 && d * r == x;
    var f := d.Floor;
    k := if f as real == d then f - 1 else f;
    FloorLeaves(x, d, k as real * r, k as real, r);
  }

  lemma FloorLeaves(x: real, d: real, y: real, g: real, r: real)
    requires r > 0.0 && g < d <= g + 1.0 && x == d * r && y == g * r
    ensures 0.0 < x - y <= r
  {
    Difference(d, g, r);
    NotZero(d - g, r);
    Shrunk(d - g, r, x - y);
  }

  lemma Shrunk(e: real, r: real, x: real)
    requires e <= 1.0 && r >= 0.0 && x == e * r
    ensures x <= r
  {
    assert (1.0 - e) * r >= 0.0;
  }

  lemma Difference(d: real, g: real, r: real)
    ensures d * r - g * r == (d - g) * r
  {
  }

  lemma AtLeast(s: real, t: real, threshold: real)
    requires t > 0.0 && s >= threshold * t
    ensures s / t >= threshold
  {
    var r := s / t;
    assert r * t == s;
    if r < threshold {
      assert (threshold - r) * t > 0.0;
    }
  }

  // ---------- It overturns a quorum ----------

  lemma CrowdDecides(cfg: RecoveryConfig, crowd: seq<Belief>)
    requires |crowd| >= cfg.minValidAgents && Voted(crowd) <= {RetryCapture, Recover, DoNothing}
    requires RetryCapture in Voted(crowd)
    requires Ratio(cfg, crowd, RetryCapture) == Ratio(cfg, crowd, Recover) >= cfg.threshold > 0.0
    requires Ratio(cfg, crowd, DoNothing) == 0.0
    requires Support(cfg, crowd, RetryCapture) == Support(cfg, crowd, Recover)
    ensures Decided(cfg, crowd) == Some(Decision(RetryCapture, QuorumReached))
  {
    hide Ratio, Support, Voted, BestOf;
    assert SAFETY[0] == DoNothing && SAFETY[1] == RetryCapture && SAFETY[6] == Recover;
    BestOfWins(cfg, crowd, |SAFETY|);
  }

  lemma CrowdVotes(p: string, q: string, n: nat, k: nat)
    requires n > 0
    ensures Voted(Crowd(p, q, n, k)) <= {RetryCapture, Recover, DoNothing}
    ensures RetryCapture in Voted(Crowd(p, q, n, k))
  {
    hide Decimal;
    assert Crowd(p, q, n, k)[0] in Crowd(p, q, n, k);
  }

  const PAYING: Context :=
    Context("payment", "", "", None, None, 0.0, 0, "", "", None, false, false, true, false)

  lemma CrowdOverturns(cfg: RecoveryConfig, p: string, q: string, n: nat, k: nat)
    requires p in cfg.agentWeights && q in cfg.agentWeights && n > 0 && 2 * n + k >= cfg.minValidAgents
    requires var s, t := n as real * cfg.agentWeights[q], Total(cfg, Crowd(p, q, n, k));
             t > 0.0 && s >= cfg.threshold * t && cfg.threshold > 0.0
    ensures Overturns(cfg, FRESH, Crowd(p, q, n, k), "t", 1, PAYING)
  {
    hide Crowd, Aggregated, Voted, AllPlain, Ratio, Total, Support, Decided, BestOf;
    var crowd := Crowd(p, q, n, k);
    CrowdPlain(cfg, p, q, n, k);
    PlainValid(cfg, crowd);
    CrowdSums(cfg, p, q, n, k);
    CrowdVotes(p, q, n, k);
    CrowdSize(p, q, n, k);
    AtLeast(n as real * cfg.agentWeights[q], Total(cfg, crowd), cfg.threshold);
    CrowdRatios(cfg, crowd);
    CrowdDecides(cfg, crowd);
    CrowdResolved(cfg, crowd);
  }

  lemma CrowdSize(p: string, q: string, n: nat, k: nat)
    ensures |Crowd(p, q, n, k)| == 2 * n + k
  {
  }

  lemma CrowdRatios(cfg: RecoveryConfig, crowd: seq<Belief>)
    requires Total(cfg, crowd) > 0.0
    requires Support(cfg, crowd, RetryPayment) == 0.0 && Support(cfg, crowd, DoNothing) == 0.0
    ensures Ratio(cfg, crowd, RetryCapture) == Support(cfg, crowd, RetryCapture) / Total(cfg, crowd)
    ensures Ratio(cfg, crowd, Recover) == Support(cfg, crowd, Recover) / Total(cfg, crowd)
    ensures Ratio(cfg, crowd, RetryPayment) == 0.0 && Ratio(cfg, crowd, DoNothing) == 0.0
  {
    hide Total, Support;
  }

  lemma CrowdResolved(cfg: RecoveryConfig, crowd: seq<Belief>)
    requires ValidIn(cfg, FRESH, crowd, "t", 1) == crowd
    requires Decided(cfg, crowd) == Some(Decision(RetryCapture, QuorumReached)) && |crowd| >= cfg.minValidAgents
    requires Ratio(cfg, crowd, Recover) >= cfg.threshold && Ratio(cfg, crowd, RetryPayment) == 0.0
    ensures Overturns(cfg, FRESH, crowd, "t", 1, PAYING)
  {
    QuorumFacts2(cfg, FRESH, crowd, "t", 1, RetryCapture);
    QuorumFacts(cfg, FRESH, crowd, "t", 1);
    hide *;
    ResolvedAway(cfg, FRESH, crowd, crowd);
  }

  lemma ResolvedAway(cfg: RecoveryConfig, m: Memory, beliefs: seq<Belief>, valid: seq<Belief>)
    requires var c := Aggregated(cfg, m, beliefs, "t", 1);
             && c.Some? && c.value.status == QuorumReached && c.value.decision == RetryCapture
             && c.value.validCount >= cfg.minValidAgents
             && forall a :: a in SAFETY ==> RatioIn(c.value, a) == Ratio(cfg, valid, a)
    requires Ratio(cfg, valid, Recover) >= cfg.threshold && Ratio(cfg, valid, RetryPayment) == 0.0
    ensures Overturns(cfg, m, beliefs, "t", 1, PAYING)
  {
    hide Aggregated, Ratio;
    assert Inferred(PAYING) == RetryPayment;
    assert SAFETY[2] == RetryPayment && SAFETY[6] == Recover;
  }

  /**
   For a threshold above one half: merging RECOVER support overturns no quorum of a third action,
   whatever the votes, if and only if no two agents have weights of opposite signs.
   */
  lemma MergeKeepsIff(cfg: RecoveryConfig)
    requires cfg.threshold > 0.5
    ensures (forall m, beliefs, tx, version, ctx :: !Overturns(cfg, m, beliefs, tx, version, ctx)) <==> OneSign(cfg)
  {
    hide Aggregated, Resolved, Inferred;
    if OneSign(cfg) {
      forall m, beliefs, tx, version, ctx
        ensures !Overturns(cfg, m, beliefs, tx, version, ctx)
      {
        if Overturns(cfg, m, beliefs, tx, version, ctx) {
          MergeKeepsQuorums(cfg, m, beliefs, tx, version, ctx);
        }
      }
    } else {
      var p :| p in cfg.agentWeights && cfg.agentWeights[p] < 0.0;
      var q :| q in cfg.agentWeights && cfg.agentWeights[q] > 0.0;
      MixedOverturns(cfg, p, q);
    }
  }

  lemma MixedOverturns(cfg: RecoveryConfig, p: string, q: string)
    requires cfg.threshold > 0.0 && p in cfg.agentWeights && q in cfg.agentWeights
    requires cfg.agentWeights[p] < 0.0 < cfg.agentWeights[q]
    ensures exists m, beliefs, tx, version, ctx :: Overturns(cfg, m, beliefs, tx, version, ctx)
  {
    hide Overturns, Total, Crowd;
    var w, r := cfg.agentWeights[q], -cfg.agentWeights[p];
    NotNegative(cfg.threshold, r);
    var n := EnoughVotes(w, cfg.threshold * r, cfg.minValidAgents);
    NotZero(n as real, w);
    var k := LeastLeft(n as real * w + n as real * w, r);
    CrowdSums(cfg, p, q, n, k);
    var t := Total(cfg, Crowd(p, q, n, k));
    Opposite(k as real, r);
    assert 0.0 < t <= r;
    Product(t, r, cfg.threshold);
    CrowdOverturns(cfg, p, q, n, k);
  }

  lemma NotNegative(x: real, y: real)
    requires x >= 0.0 && y >= 0.0
    ensures x * y >= 0.0
  {
  }

  lemma NotZero(x: real, y: real)
    requires x > 0.0 && y > 0.0
    ensures x * y > 0.0
  {
  }

  lemma Opposite(k: real, r: real)
    ensures k * -r == -(k * r)
  {
  }
}
