/** What aggregation guarantees about support ratios, and at most one quorum. */
module ConsensusTheorems {
  import opened Collections
  import opened Consensus

  // ---------- Ratios ----------

  predicate FairWeights(cfg: RecoveryConfig) {
    forall a :: a in cfg.agentWeights ==> cfg.agentWeights[a] >= 0.0
  }

  /** No two agents pull the total in opposite directions. */
  predicate OneSign(cfg: RecoveryConfig) {
    FairWeights(cfg) || forall a :: a in cfg.agentWeights ==> cfg.agentWeights[a] <= 0.0
  }

  function Negated(cfg: RecoveryConfig): RecoveryConfig {
    cfg.(agentWeights := map a | a in cfg.agentWeights :: -cfg.agentWeights[a])
  }

  lemma {:induction false} SumByNegated<T>(f: T -> real, g: T -> real, s: seq<T>)
    requires forall x :: g(x) == -f(x)
    ensures SumBy(g, s) == -SumBy(f, s)
  {
    if |s| == 0 {
    } else {
      SumByNegated(f, g, s[..|s| - 1]);
    }
  }

  lemma NegativeQuotient(s: real, t: real)
    requires t != 0.0
    ensures (-s) / (-t) == s / t
  {
  }

  /** Turning all weights around changes no ratio. */
  lemma RatioNegated(cfg: RecoveryConfig, valid: seq<Belief>, a: Recommendation)
    ensures Ratio(Negated(cfg), valid, a) == Ratio(cfg, valid, a)
  {
    hide SumBy;
    var n := Negated(cfg);
    forall b
      ensures Weighing(n)(b) == -Weighing(cfg)(b) && Backing(n, a)(b) == -Backing(cfg, a)(b)
    {
      WeightNegated(cfg, b.agentId, b.confidence);
    }
    SumByNegated(Weighing(cfg), Weighing(n), valid);
    SumByNegated(Backing(cfg, a), Backing(n, a), valid);
    if Total(cfg, valid) != 0.0 {
      NegativeQuotient(Support(cfg, valid, a), Total(cfg, valid));
    }
  }

  lemma WeightNegated(cfg: RecoveryConfig, agent: string, c: real)
    ensures WeightOf(Negated(cfg), agent) == -WeightOf(cfg, agent)
    ensures WeightOf(Negated(cfg), agent) * c == -(WeightOf(cfg, agent) * c)
  {
  }

  predicate SoundBeliefs(beliefs: seq<Belief>) {
    forall b :: b in beliefs ==> 0.0 <= b.confidence <= 1.0
  }

  /** What participates has a confidence between 0 and 1. */
  lemma {:induction false} ValidAreSound(cfg: RecoveryConfig, m: Memory, beliefs: seq<Belief>, tx: string, version: int)
    ensures SoundBeliefs(ValidOnes(beliefs, Verdicts(cfg, m, beliefs, tx, version)))
  {
    if |beliefs| == 0 {
    } else {
      var p, v := beliefs[..|beliefs| - 1], Verdicts(cfg, m, beliefs, tx, version);
      ValidAreSound(cfg, m, p, tx, version);
      assert v[..|p|] == Verdicts(cfg, m, p, tx, version);
    }
  }

  function SupportUpTo(cfg: RecoveryConfig, valid: seq<Belief>, n: nat): real
    requires n <= |SAFETY|
  {
    if n == 0 then 0.0 else SupportUpTo(cfg, valid, n - 1) + Support(cfg, valid, SAFETY[n - 1])
  }

  lemma SupportSnoc(cfg: RecoveryConfig, p: seq<Belief>, b: Belief, a: Recommendation)
    ensures Support(cfg, p + [b], a) == Support(cfg, p, a)
                                        + if b.recommendation == a then WeightOf(cfg, b.agentId) * b.confidence else 0.0
  {
    assert (p + [b])[..|p|] == p;
  }

  lemma {:induction false} SupportUpToSnoc(cfg: RecoveryConfig, p: seq<Belief>, b: Belief, n: nat)
    requires n <= |SAFETY|
    ensures SupportUpTo(cfg, p + [b], n) ==
            SupportUpTo(cfg, p, n)
            + if Rank(b.recommendation) < n then WeightOf(cfg, b.agentId) * b.confidence else 0.0
  {
    hide Support, WeightOf, Rank;
    if n == 0 {
    } else {
      SupportUpToSnoc(cfg, p, b, n - 1);
      SupportSnoc(cfg, p, b, SAFETY[n - 1]);
      RankOf(n - 1);
      if Rank(b.recommendation) == n - 1 {
        assert SAFETY[n - 1] == b.recommendation;
      }
    }
  }

  lemma ScaledDown(w: real, c: real, x: real)
    requires w >= 0.0 && 0.0 <= c <= 1.0 && x == w * c
    ensures 0.0 <= x <= w
  {
    assert w * (1.0 - c) >= 0.0;
  }

  lemma QuotientSum(x: real, y: real, t: real)
    requires t > 0.0
    ensures (x + y) / t == x / t + y / t
  {
  }

  lemma BackingBounds(cfg: RecoveryConfig, b: Belief, a: Recommendation)
    requires FairWeights(cfg) && 0.0 <= b.confidence <= 1.0
    ensures 0.0 <= Backing(cfg, a)(b) <= Weighing(cfg)(b)
  {
    if b.recommendation == a {
      ScaledDown(WeightOf(cfg, b.agentId), b.confidence, Backing(cfg, a)(b));
    }
  }

  lemma SupportBetween(cfg: RecoveryConfig, valid: seq<Belief>, a: Recommendation)
    requires FairWeights(cfg) && SoundBeliefs(valid)
    ensures 0.0 <= Support(cfg, valid, a) <= Total(cfg, valid)
  {
    forall b | b in valid
      ensures 0.0 <= Backing(cfg, a)(b) <= Weighing(cfg)(b)
    {
      BackingBounds(cfg, b, a);
    }
    SumByNonNegative(Backing(cfg, a), valid);
    SumByMonotone(Backing(cfg, a), Weighing(cfg), valid);
  }

  lemma {:induction false} PairWithinTotal(cfg: RecoveryConfig, valid: seq<Belief>, a: Recommendation,
                                           c: Recommendation)
    requires FairWeights(cfg) && SoundBeliefs(valid) && a != c
    ensures Support(cfg, valid, a) + Support(cfg, valid, c) <= Total(cfg, valid)
  {
    if |valid| == 0 {
    } else {
      var p, b := valid[..|valid| - 1], valid[|valid| - 1];
      assert b in valid;
      PairWithinTotal(cfg, p, a, c);
      BackingBounds(cfg, b, a);
      BackingBounds(cfg, b, c);
      assert Backing(cfg, a)(b) == 0.0 || Backing(cfg, c)(b) == 0.0;
    }
  }

  lemma {:induction false} AllWithinTotal(cfg: RecoveryConfig, valid: seq<Belief>)
    requires FairWeights(cfg) && SoundBeliefs(valid)
    ensures SupportUpTo(cfg, valid, |SAFETY|) <= Total(cfg, valid)
  {
    hide SupportUpTo;
    if |valid| == 0 {
      NoSupport(cfg, |SAFETY|);
      assert valid == [];
    } else {
      var p, b := valid[..|valid| - 1], valid[|valid| - 1];
      assert valid == p + [b];
      assert b in valid;
      AllWithinTotal(cfg, p);
      SupportUpToSnoc(cfg, p, b, |SAFETY|);
      ScaledDown(WeightOf(cfg, b.agentId), b.confidence, WeightOf(cfg, b.agentId) * b.confidence);
      assert Total(cfg, valid) == Total(cfg, p) + WeightOf(cfg, b.agentId);
    }
  }

  lemma {:induction false} NoSupport(cfg: RecoveryConfig, n: nat)
    requires n <= |SAFETY|
    ensures SupportUpTo(cfg, [], n) == 0.0
  {
    if n == 0 {
    } else {
      NoSupport(cfg, n - 1);
    }
  }

  function RatiosUpTo(cfg: RecoveryConfig, valid: seq<Belief>, n: nat): real
    requires n <= |SAFETY|
  {
    if n == 0 then 0.0 else RatiosUpTo(cfg, valid, n - 1) + Ratio(cfg, valid, SAFETY[n - 1])
  }

  lemma {:induction false} RatiosScale(cfg: RecoveryConfig, valid: seq<Belief>, n: nat)
    requires n <= |SAFETY|
    ensures RatiosUpTo(cfg, valid, n) * Total(cfg, valid) ==
            if Total(cfg, valid) == 0.0 then 0.0 else SupportUpTo(cfg, valid, n)
  {
    hide Total, Support;
    if n == 0 {
    } else {
      RatiosScale(cfg, valid, n - 1);
      var t, s := Total(cfg, valid), Support(cfg, valid, SAFETY[n - 1]);
      if t != 0.0 {
        assert (s / t) * t == s;
      }
    }
  }

  lemma QuotientSign(a: real, t: real)
    requires t > 0.0 && a >= 0.0
    ensures a / t >= 0.0
  {
  }

  lemma AtMostOne(x: real, t: real, s: real)
    requires t > 0.0 && x * t == s && s <= t
    ensures x <= 1.0
  {
    assert x == s / t;
    QuotientSign(t - s, t);
    assert (t - s) / t == t / t - s / t;
  }

  lemma Quotient(s: real, t: real)
    requires t > 0.0 && 0.0 <= s <= t
    ensures 0.0 <= s / t <= 1.0
  {
    QuotientSign(s, t);
    AtMostOne(s / t, t, s);
  }

  lemma {:induction false} RatiosUpToZero(cfg: RecoveryConfig, valid: seq<Belief>, n: nat)
    requires n <= |SAFETY| && Total(cfg, valid) == 0.0
    ensures RatiosUpTo(cfg, valid, n) == 0.0
  {
    hide Total, Support;
    if n == 0 {
    } else {
      RatiosUpToZero(cfg, valid, n - 1);
    }
  }

  lemma FairRatioBetween(cfg: RecoveryConfig, valid: seq<Belief>, a: Recommendation)
    requires FairWeights(cfg) && SoundBeliefs(valid)
    ensures 0.0 <= Ratio(cfg, valid, a) <= 1.0
  {
    hide Total, Support;
    SupportBetween(cfg, valid, a);
    if Total(cfg, valid) > 0.0 {
      Quotient(Support(cfg, valid, a), Total(cfg, valid));
    }
  }

  lemma FairRatioPair(cfg: RecoveryConfig, valid: seq<Belief>, a: Recommendation, b: Recommendation)
    requires FairWeights(cfg) && SoundBeliefs(valid) && a != b
    ensures Ratio(cfg, valid, a) + Ratio(cfg, valid, b) <= 1.0
  {
    hide Total, Support;
    SupportBetween(cfg, valid, a);
    SupportBetween(cfg, valid, b);
    PairWithinTotal(cfg, valid, a, b);
    var x, y, t := Support(cfg, valid, a), Support(cfg, valid, b), Total(cfg, valid);
    if t > 0.0 {
      Quotient(x + y, t);
      QuotientSum(x, y, t);
    }
  }

  lemma FairRatios(cfg: RecoveryConfig, valid: seq<Belief>)
    requires FairWeights(cfg) && SoundBeliefs(valid)
    ensures forall a :: 0.0 <= Ratio(cfg, valid, a) <= 1.0
    ensures RatiosUpTo(cfg, valid, |SAFETY|) <= 1.0
    ensures forall a, b :: a != b ==> Ratio(cfg, valid, a) + Ratio(cfg, valid, b) <= 1.0
  {
    hide Total, Support, SupportUpTo, RatiosUpTo, Ratio;
    forall a
      ensures 0.0 <= Ratio(cfg, valid, a) <= 1.0
    {
      FairRatioBetween(cfg, valid, a);
    }
    forall a, b | a != b
      ensures Ratio(cfg, valid, a) + Ratio(cfg, valid, b) <= 1.0
    {
      FairRatioPair(cfg, valid, a, b);
    }
    SupportBetween(cfg, valid, DoNothing);
    AllWithinTotal(cfg, valid);
    if Total(cfg, valid) > 0.0 {
      RatiosScale(cfg, valid, |SAFETY|);
      AtMostOne(RatiosUpTo(cfg, valid, |SAFETY|), Total(cfg, valid), SupportUpTo(cfg, valid, |SAFETY|));
    } else {
      RatiosUpToZero(cfg, valid, |SAFETY|);
    }
  }

  lemma RatioBetween(cfg: RecoveryConfig, valid: seq<Belief>, a: Recommendation)
    requires OneSign(cfg) && SoundBeliefs(valid)
    ensures 0.0 <= Ratio(cfg, valid, a) <= 1.0
  {
    hide Ratio;
    RatioNegated(cfg, valid, a);
    FairRatioBetween(if FairWeights(cfg) then cfg else Negated(cfg), valid, a);
  }

  lemma {:induction false} RatiosNegated(cfg: RecoveryConfig, valid: seq<Belief>, n: nat)
    requires n <= |SAFETY|
    ensures RatiosUpTo(Negated(cfg), valid, n) == RatiosUpTo(cfg, valid, n)
  {
    hide Ratio;
    if n == 0 {
    } else {
      RatiosNegated(cfg, valid, n - 1);
      RatioNegated(cfg, valid, SAFETY[n - 1]);
    }
  }

  lemma RatiosOfSound(cfg: RecoveryConfig, valid: seq<Belief>)
    requires OneSign(cfg) && SoundBeliefs(valid)
    ensures forall a :: 0.0 <= Ratio(cfg, valid, a) <= 1.0
    ensures RatiosUpTo(cfg, valid, |SAFETY|) <= 1.0
    ensures forall a, b :: a != b ==> Ratio(cfg, valid, a) + Ratio(cfg, valid, b) <= 1.0
  {
    hide Ratio, RatiosUpTo, SoundBeliefs;
    RatiosNegated(cfg, valid, |SAFETY|);
    forall a
      ensures Ratio(Negated(cfg), valid, a) == Ratio(cfg, valid, a)
    {
      RatioNegated(cfg, valid, a);
    }
    FairRatios(if FairWeights(cfg) then cfg else Negated(cfg), valid);
  }

  /** Every support ratio lies between 0 and 1, and all of them together make at most 1. */
  lemma RatiosBounded(cfg: RecoveryConfig, m: Memory, beliefs: seq<Belief>, tx: string, version: int)
    requires OneSign(cfg)
    ensures var valid := ValidOnes(beliefs, Verdicts(cfg, m, beliefs, tx, version));
            && (forall a :: 0.0 <= Ratio(cfg, valid, a) <= 1.0)
            && RatiosUpTo(cfg, valid, |SAFETY|) <= 1.0
            && (forall a, b :: a != b ==> Ratio(cfg, valid, a) + Ratio(cfg, valid, b) <= 1.0)
  {
    var valid := ValidOnes(beliefs, Verdicts(cfg, m, beliefs, tx, version));
    ValidAreSound(cfg, m, beliefs, tx, version);
    RatiosOfSound(cfg, valid);
  }

  // ---------- The sign condition is exact ----------

  /** A belief that a fresh validator takes. */
  function Plain(id: string, agent: string, vote: Recommendation, confidence: real): Belief {
    Belief(id, agent, "t", 1, vote, confidence, true, "now")
  }

  function Payer(id: string, agent: string, confidence: real): Belief {
    Plain(id, agent, RetryPayment, confidence)
  }

  predicate IsPlain(cfg: RecoveryConfig, b: Belief) {
    && b == Plain(b.beliefId, b.agentId, b.recommendation, b.confidence)
    && b.agentId in cfg.agentWeights && 0.0 <= b.confidence <= 1.0
  }

  ghost predicate BoundsHold(cfg: RecoveryConfig) {
    forall m, beliefs, tx, version, a ::
      0.0 <= Ratio(cfg, ValidOnes(beliefs, Verdicts(cfg, m, beliefs, tx, version)), a) <= 1.0
  }

  const FRESH: Memory := Memory({}, map[], {})

  lemma PlainTaken(cfg: RecoveryConfig, ids: set<string>, b: Belief)
    requires IsPlain(cfg, b) && b.beliefId !in ids
    ensures Judged(cfg, Memory(ids, map[], {}), b, "t", 1) == Verdict(Participating, None)
    ensures Remembered(cfg, Memory(ids, map[], {}), b, "t", 1) == Memory(ids + {b.beliefId}, map[], {})
  {
  }

  predicate AllPlain(cfg: RecoveryConfig, beliefs: seq<Belief>) {
    && (forall b :: b in beliefs ==> IsPlain(cfg, b))
    && (forall i, j :: 0 <= i < j < |beliefs| ==> beliefs[i].beliefId != beliefs[j].beliefId)
  }

  function IdsIn(beliefs: seq<Belief>): set<string> {
    set b | b in beliefs :: b.beliefId
  }

  lemma LastIsNew(cfg: RecoveryConfig, p: seq<Belief>, b: Belief)
    requires AllPlain(cfg, p + [b])
    ensures AllPlain(cfg, p) && b.beliefId !in IdsIn(p) && IdsIn(p + [b]) == IdsIn(p) + {b.beliefId}
    ensures IsPlain(cfg, b)
  {
    var all := p + [b];
    assert all[|p|] == b && forall i :: 0 <= i < |p| ==> all[i] == p[i];
    assert forall c :: c in p ==> c in all;
    assert b in all;
  }

  lemma {:induction false} PlainMemory(cfg: RecoveryConfig, beliefs: seq<Belief>)
    requires AllPlain(cfg, beliefs)
    ensures MemoryAfter(cfg, FRESH, beliefs, "t", 1) == Memory(IdsIn(beliefs), map[], {})
  {
    hide Remembered, AllPlain, IdsIn;
    if |beliefs| == 0 {
      NoIds();
      assert beliefs == [];
    } else {
      var p, b := beliefs[..|beliefs| - 1], beliefs[|beliefs| - 1];
      assert beliefs == p + [b];
      LastIsNew(cfg, p, b);
      PlainMemory(cfg, p);
      PlainTaken(cfg, IdsIn(p), b);
    }
  }

  lemma NoIds()
    ensures IdsIn([]) == {}
  {
  }

  /** A fresh validator takes every plain belief under a new id. */
  lemma {:induction false} PlainValid(cfg: RecoveryConfig, beliefs: seq<Belief>)
    requires AllPlain(cfg, beliefs)
    ensures ValidOnes(beliefs, Verdicts(cfg, FRESH, beliefs, "t", 1)) == beliefs
  {
    hide Judged, Remembered, AllPlain, IdsIn, MemoryAfter;
    if |beliefs| == 0 {
    } else {
      var p, b := beliefs[..|beliefs| - 1], beliefs[|beliefs| - 1];
      assert beliefs == p + [b];
      LastIsNew(cfg, p, b);
      PlainValid(cfg, p);
      PlainMemory(cfg, p);
      PlainTaken(cfg, IdsIn(p), b);
      assert Verdicts(cfg, FRESH, beliefs, "t", 1)[..|p|] == Verdicts(cfg, FRESH, p, "t", 1);
    }
  }

  lemma PairSums(cfg: RecoveryConfig, x: Belief, y: Belief, f: Belief -> real)
    ensures SumBy(f, [x, y]) == f(x) + f(y)
  {
    assert [x, y][..1] == [x] && [x][..0] == [];
    assert SumBy(f, [x]) == SumBy(f, []) + f(x);
  }

  /** One agent's full confidence against another's none: the ratio is the one weight over both. */
  lemma PairRatio(cfg: RecoveryConfig, p: string, q: string)
    requires p in cfg.agentWeights && q in cfg.agentWeights
    ensures var valid, t := [Payer("1", p, 0.0), Payer("2", q, 1.0)], cfg.agentWeights[p] + cfg.agentWeights[q];
            Ratio(cfg, valid, RetryPayment) == if t == 0.0 then 0.0 else cfg.agentWeights[q] / t
  {
    PairSums(cfg, Payer("1", p, 0.0), Payer("2", q, 1.0), Weighing(cfg));
    PairSums(cfg, Payer("1", p, 0.0), Payer("2", q, 1.0), Backing(cfg, RetryPayment));
  }

  lemma TripleRatio(cfg: RecoveryConfig, p: string, q: string)
    requires p in cfg.agentWeights && q in cfg.agentWeights
    requires cfg.agentWeights[p] + cfg.agentWeights[q] == 0.0 && cfg.agentWeights[q] > 0.0
    ensures Ratio(cfg, [Payer("1", p, 0.0), Payer("2", q, 1.0), Payer("3", q, 1.0)], RetryPayment) == 2.0
  {
    var x, y, z := Payer("1", p, 0.0), Payer("2", q, 1.0), Payer("3", q, 1.0);
    assert [x, y, z][..2] == [x, y];
    PairSums(cfg, x, y, Weighing(cfg));
    PairSums(cfg, x, y, Backing(cfg, RetryPayment));
    Twice(cfg.agentWeights[q]);
  }

  lemma Twice(w: real)
    requires w > 0.0
    ensures (w + w) / w == 2.0
  {
  }

  lemma OutOfBounds(w: real, t: real)
    requires w > 0.0 && t < w && t != 0.0
    ensures !(0.0 <= w / t <= 1.0)
  {
    var r := w / t;
    assert r * t == w;
    if 0.0 <= r <= 1.0 {
      Scaled(r, t, w);
    }
  }

  lemma Scaled(r: real, t: real, w: real)
    requires 0.0 <= r <= 1.0 && r * t == w && w > 0.0
    ensures t >= w
  {
    if t > 0.0 {
      assert (1.0 - r) * t >= 0.0;
    } else {
      NotPositive(r, t);
    }
  }

  lemma NotPositive(r: real, t: real)
    requires r >= 0.0 && t <= 0.0
    ensures r * t <= 0.0
  {
  }

  /** The bounds hold for all beliefs if and only if no two agents have weights of opposite signs. */
  lemma RatiosBoundedIff(cfg: RecoveryConfig)
    ensures BoundsHold(cfg) <==> OneSign(cfg)
  {
    hide Ratio, Verdicts, ValidOnes;
    if OneSign(cfg) {
      forall m, beliefs, tx, version, a
        ensures 0.0 <= Ratio(cfg, ValidOnes(beliefs, Verdicts(cfg, m, beliefs, tx, version)), a) <= 1.0
      {
        RatiosBounded(cfg, m, beliefs, tx, version);
      }
    } else {
      var p :| p in cfg.agentWeights && cfg.agentWeights[p] < 0.0;
      var q :| q in cfg.agentWeights && cfg.agentWeights[q] > 0.0;
      var pair := [Payer("1", p, 0.0), Payer("2", q, 1.0)];
      var triple := [Payer("1", p, 0.0), Payer("2", q, 1.0), Payer("3", q, 1.0)];
      PlainValid(cfg, pair);
      PlainValid(cfg, triple);
      PairRatio(cfg, p, q);
      var t := cfg.agentWeights[p] + cfg.agentWeights[q];
      if t == 0.0 {
        TripleRatio(cfg, p, q);
        assert !(0.0 <= Ratio(cfg, ValidOnes(triple, Verdicts(cfg, FRESH, triple, "t", 1)), RetryPayment) <= 1.0);
      } else {
        OutOfBounds(cfg.agentWeights[q], t);
        assert !(0.0 <= Ratio(cfg, ValidOnes(pair, Verdicts(cfg, FRESH, pair, "t", 1)), RetryPayment) <= 1.0);
      }
    }
  }

  // ---------- At most one quorum ----------

  ghost predicate TwoQuorums(cfg: RecoveryConfig, valid: seq<Belief>) {
    && OneSign(cfg) && SoundBeliefs(valid)
    && exists a, b :: a != b && Reaches(cfg, valid, a) && Reaches(cfg, valid, b)
  }

  /** Two actions can both reach the threshold exactly when it is at most one half. */
  lemma OneQuorumIff(threshold: real)
    ensures (exists cfg: RecoveryConfig, valid :: cfg.threshold == threshold && TwoQuorums(cfg, valid))
            <==> threshold <= 0.5
  {
    if cfg: RecoveryConfig, valid :| cfg.threshold == threshold && TwoQuorums(cfg, valid) {
      RatiosOfSound(cfg, valid);
      var a, b :| a != b && Reaches(cfg, valid, a) && Reaches(cfg, valid, b);
      assert Ratio(cfg, valid, a) + Ratio(cfg, valid, b) <= 1.0;
    }
    if threshold <= 0.5 {
      TwoAtHalf(threshold);
    }
  }

  lemma TwoAtHalf(threshold: real)
    requires threshold <= 0.5
    ensures exists cfg: RecoveryConfig, valid :: cfg.threshold == threshold && TwoQuorums(cfg, valid)
  {
    hide Ratio;
    var cfg := RecoveryConfig(map["p" := 1.0, "q" := 1.0], threshold, 1, 3, 0.0, 0.0, {}, {}, false, 0.0);
    var x := Belief("1", "p", "t", 1, RetryPayment, 1.0, true, "now");
    var y := Belief("2", "q", "t", 1, RetryCapture, 1.0, true, "now");
    EvenSplit(cfg, x, y);
    assert Reaches(cfg, [x, y], RetryPayment) && Reaches(cfg, [x, y], RetryCapture);
    assert TwoQuorums(cfg, [x, y]);
  }

  lemma EvenSplit(cfg: RecoveryConfig, x: Belief, y: Belief)
    requires x.agentId in cfg.agentWeights && cfg.agentWeights[x.agentId] == 1.0 && x.confidence == 1.0
    requires y.agentId in cfg.agentWeights && cfg.agentWeights[y.agentId] == 1.0 && y.confidence == 1.0
    requires x.recommendation != y.recommendation
    ensures Ratio(cfg, [x, y], x.recommendation) == 0.5 && Ratio(cfg, [x, y], y.recommendation) == 0.5
    ensures Support(cfg, [x, y], x.recommendation) == 1.0 && Support(cfg, [x, y], y.recommendation) == 1.0
  {
    assert [x, y] == [x] + [y] && [x][..0] == [] && [y][..0] == [];
    forall f: Belief -> real
      ensures SumBy(f, [x, y]) == f(x) + f(y)
    {
      SumByConcat(f, [x], [y]);
      assert SumBy(f, [x]) == SumBy(f, []) + f(x);
      assert SumBy(f, [y]) == SumBy(f, []) + f(y);
    }
  }

  // ---------- The KeyError ----------

  /**
   Aggregation ends in a KeyError if and only if enough beliefs are valid and one of them votes
   for an action outside the safety order, which is one of the two settlement actions.
   */
  lemma KeyErrorIff(cfg: RecoveryConfig, m: Memory, beliefs: seq<Belief>, tx: string, version: int)
    ensures var valid := ValidOnes(beliefs, Verdicts(cfg, m, beliefs, tx, version));
            Aggregated(cfg, m, beliefs, tx, version) == None <==>
            |valid| >= cfg.minValidAgents
            && exists b :: b in valid && b.recommendation in {SettlementRetry, SettlementEscalate}
  {
    hide Verdicts, ValidOnes, BestOf, Report;
    var valid := ValidOnes(beliefs, Verdicts(cfg, m, beliefs, tx, version));
    forall a
      ensures a !in SAFETY <==> a in {SettlementRetry, SettlementEscalate}
    {
      OutsideSafety(a);
    }
    if b :| b in valid && b.recommendation in {SettlementRetry, SettlementEscalate} {
      assert b.recommendation in Voted(valid) && b.recommendation !in SAFETY;
    }
    if a :| a in Voted(valid) && a !in SAFETY {
      var b :| b in valid && b.recommendation == a;
    }
  }

  lemma OutsideSafety(a: Recommendation)
    ensures a !in SAFETY <==> a in {SettlementRetry, SettlementEscalate}
  {
    var i := Rank(a);
  }

  /** One valid vote for a settlement retry is enough. */
  lemma SettlementVoteRaises(cfg: RecoveryConfig, b: Belief)
    requires cfg.minValidAgents == 1 && b.agentId in cfg.agentWeights
    requires b == Plain(b.beliefId, b.agentId, SettlementRetry, 1.0)
    ensures Aggregated(cfg, FRESH, [b], "t", 1) == None
  {
    hide Aggregated;
    KeyErrorIff(cfg, FRESH, [b], "t", 1);
    assert [b][..0] == [];
    assert Verdicts(cfg, FRESH, [b], "t", 1)[0].standing == Participating;
    assert ValidOnes([b], Verdicts(cfg, FRESH, [b], "t", 1)) == [b];
    assert b in [b];
  }
}
