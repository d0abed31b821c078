/** The confidence in a cause, in numbers, and the observations it is made of. */
module RcaConfidence {
  import opened Collections
  import opened BatchIds
  import opened RootCauseAnalysis

  // ---------- The leading provider ----------

  /** What was observed of a provider, at a stage and with a payment method. */
  function Seen(c: Counts, o: Observation, provider: string): Stats {
    StatsOf(c, ProviderKey(o.stage, o.paymentMethod, provider))
  }

  ghost predicate Leads(c: Counts, o: Observation, p: string, q: string) {
    var s, t := Seen(c, o, p), Seen(c, o, q);
    || s.failures > t.failures
    || (s.failures == t.failures && s.total > t.total)
    || (s.failures == t.failures && s.total == t.total && TextBefore(q, p))
  }

  /** It failed, and before all others that failed: by failures, then by observations, then by the last name. */
  ghost predicate Leading(c: Counts, o: Observation, top: string) {
    && Seen(c, o, top).failures > 0
    && forall q :: Seen(c, o, q).failures > 0 && q != top ==> Leads(c, o, top, q)
  }

  lemma CandidateIff(c: Counts, o: Observation, p: string)
    ensures p in Candidates(c, o.stage, o.paymentMethod) <==> Seen(c, o, p).failures > 0
  {
    var k := ProviderKey(o.stage, o.paymentMethod, p);
    if k in c.providers && c.providers[k].failures > 0 {
      assert k.provider in Candidates(c, o.stage, o.paymentMethod);
    }
  }

  lemma LeadingIff(c: Counts, o: Observation, top: string)
    ensures Leading(c, o, top) <==> IsTop(c, o.stage, o.paymentMethod, Candidates(c, o.stage, o.paymentMethod), top)
  {
    hide Candidates;
    forall p
      ensures p in Candidates(c, o.stage, o.paymentMethod) <==> Seen(c, o, p).failures > 0
    {
      CandidateIff(c, o, p);
    }
  }

  // ---------- Numbers ----------

  /** The share of the failures, a bonus for up to three of them, and nine twentieths to begin with. */
  function Belief(failures: nat, total: nat): real
    requires total > 0
  {
    0.45 + 0.45 * (failures as real / total as real)
    + (if failures == 0 then 0.0 else if failures == 1 then 0.05 else if failures == 2 then 0.10 else 0.15)
  }

  /** What an edge adds: one tenth for one observation through it, three twentieths for more. */
  function Added(w: nat): real {
    if w == 0 then 0.0 else if w == 1 then 0.1 else 0.15
  }

  lemma AddedIs(c: Counts, o: Observation, i: nat)
    requires i < 3
    ensures EvidenceFor(c, o, i) == Added(WeightOf(c, EdgeAt(o, i)))
  {
    hide EdgeAt, WeightOf;
    var w := WeightOf(c, EdgeAt(o, i));
    if w >= 2 {
      assert w as real * 0.1 >= 0.2;
    }
  }

  lemma BeliefIs(failures: nat, total: nat)
    requires total > 0
    ensures var b := BaseConfidence(failures, total);
            if Belief(failures, total) <= 0.99 then b == Belief(failures, total) else b == 0.99
  {
  }

  /**
   What a failure is put down to, in numbers: below two failures, or below 0.65, an unknown cause
   with a confidence of at most 0.6; else the leading provider, and what the edges add up to 0.99.
   */
  lemma CauseInNumbers(c: Counts, o: Observation, top: string)
    requires o.failed && Leading(c, o, top)
    ensures var f, total := Seen(c, o, top).failures,
                            SumFailures(c, o.stage, o.paymentMethod, Candidates(c, o.stage, o.paymentMethod));
            && total >= f
            && var b := Belief(f, total);
               var all := b + Added(WeightOf(c, EdgeAt(o, 0))) + Added(WeightOf(c, EdgeAt(o, 1)))
                          + Added(WeightOf(c, EdgeAt(o, 2)));
               CauseOf(c, o) ==
                 if f < 2 || b < 0.65 then UnknownCause(if b < 0.6 then b else 0.6)
                 else Degradation(top, if all < 0.99 then all else 0.99)
  {
    hide BaseConfidence, Belief, Candidates, SumFailures, WeightOf, EvidenceFor, TopOf, EdgeAt, Leading, IsTop, Added;
    var ps := Candidates(c, o.stage, o.paymentMethod);
    LeadingIff(c, o, top);
    TopInSet(c, o.stage, o.paymentMethod, ps, top);
    TopUnique(c, o.stage, o.paymentMethod, ps, top, TopOf(c, o.stage, o.paymentMethod, ps));
    SumAtLeast(c, o.stage, o.paymentMethod, ps, top);
    CandidateFails(c, o.stage, o.paymentMethod, top);
    BeliefIs(Seen(c, o, top).failures, SumFailures(c, o.stage, o.paymentMethod, ps));
    AddedIs(c, o, 0);
    AddedIs(c, o, 1);
    AddedIs(c, o, 2);
    NoneNegative();
  }

  lemma NoneNegative()
    ensures forall w :: Added(w) >= 0.0
  {
  }

  lemma TopInSet(c: Counts, stage: string, paymentMethod: string, ps: set<string>, top: string)
    requires IsTop(c, stage, paymentMethod, ps, top)
    ensures top in ps
  {
  }

  /** Without a provider that failed, or for an event that did not fail, there is no confidence in anything. */
  lemma NoCause(c: Counts, o: Observation)
    ensures !o.failed || (forall p :: Seen(c, o, p).failures == 0) ==> CauseOf(c, o) == UnknownCause(0.0)
  {
    hide TopOf, BaseConfidence, FullConfidence, SumFailures;
    if forall p :: Seen(c, o, p).failures == 0 {
      forall p
        ensures p !in Candidates(c, o.stage, o.paymentMethod)
      {
        CandidateIff(c, o, p);
      }
      assert Candidates(c, o.stage, o.paymentMethod) == {};
    }
  }

  // ---------- What the numbers count ----------

  function AtProvider(stage: string, paymentMethod: string, provider: string): Observation -> bool {
    (o: Observation) => o.stage == stage && o.paymentMethod == paymentMethod && o.provider == provider
  }

  function FailedAtProvider(stage: string, paymentMethod: string, provider: string): Observation -> bool {
    (o: Observation) => o.stage == stage && o.paymentMethod == paymentMethod && o.provider == provider && o.failed
  }

  /** The i-th step that two observations may have in common. */
  function SharesStep(o: Observation, i: nat): Observation -> bool {
    (x: Observation) =>
      if i == 0 then x.stage == o.stage && x.paymentMethod == o.paymentMethod
      else if i == 1 then x.paymentMethod == o.paymentMethod && x.provider == o.provider
      else x.provider == o.provider && x.failureCode == o.failureCode
  }

  lemma {:induction false} FilterAgree<T(!new)>(p: T -> bool, q: T -> bool, s: seq<T>)
    requires forall x :: p(x) == q(x)
    ensures Filter(p, s) == Filter(q, s)
  {
    if |s| == 0 {
    } else {
      FilterAgree(p, q, s[..|s| - 1]);
    }
  }

  /**
   After any observations, the numbers that an explanation reads are the observations of a
   provider, those that failed, and those that share a step with the failure explained.
   */
  lemma CountsOfLog(log: seq<Observation>, o: Observation, provider: string, i: nat)
    requires i < 3
    ensures Seen(ObservedAll(log), o, provider).total
            == |Filter(AtProvider(o.stage, o.paymentMethod, provider), log)|
    ensures Seen(ObservedAll(log), o, provider).failures
            == |Filter(FailedAtProvider(o.stage, o.paymentMethod, provider), log)|
    ensures WeightOf(ObservedAll(log), EdgeAt(o, i)) == |Filter(SharesStep(o, i), log)|
  {
    hide ObservedAll, Filter, StatsOf, WeightOf;
    var k, e := ProviderKey(o.stage, o.paymentMethod, provider), EdgeAt(o, i);
    CountsAreCounts(log, k, e);
    forall x
      ensures ForProvider(k)(x) == AtProvider(o.stage, o.paymentMethod, provider)(x)
      ensures FailedAt(k)(x) == FailedAtProvider(o.stage, o.paymentMethod, provider)(x)
      ensures Through(e)(x) == SharesStep(o, i)(x)
    {
      SameStep(x, o, i);
    }
    FilterAgree(ForProvider(k), AtProvider(o.stage, o.paymentMethod, provider), log);
    FilterAgree(FailedAt(k), FailedAtProvider(o.stage, o.paymentMethod, provider), log);
    FilterAgree(Through(e), SharesStep(o, i), log);
  }

  lemma SameStep(x: Observation, o: Observation, i: nat)
    requires i < 3
    ensures Through(EdgeAt(o, i))(x) == SharesStep(o, i)(x)
  {
    assert PathOf(x)[0] == StageNode(x.stage) && PathOf(x)[1] == MethodNode(x.paymentMethod);
    assert PathOf(x)[2] == ProviderNode(x.provider) && PathOf(x)[3] == FailureNode(x.failureCode);
  }

  // ---------- Explaining a failure that has just been observed ----------

  lemma BeliefOfLeading(f: nat, total: nat)
    requires 0 < f <= total
    ensures Belief(f, total) > 0.5
  {
    assert f as real / total as real > 0.0;
  }

  /** A leading provider there always is, once one has failed. */
  lemma SomeLeading(c: Counts, o: Observation, p: string) returns (top: string)
    requires Seen(c, o, p).failures > 0
    ensures Leading(c, o, top)
  {
    CandidateIff(c, o, p);
    top := TopOf(c, o.stage, o.paymentMethod, Candidates(c, o.stage, o.paymentMethod));
    LeadingIff(c, o, top);
  }

  /**
   As the consumer asks it, right after observing the failure itself: the confidence is above one
   half, at most 0.6 for an unknown cause, and between 0.95 and 0.99 for a provider.
   */
  lemma ConfidenceGap(c: Counts, o: Observation)
    requires o.failed
    ensures var cause := CauseOf(Observed(c, o), o);
            if cause.UnknownCause? then 0.5 < cause.confidence <= 0.6 else 0.95 <= cause.confidence <= 0.99
  {
    hide CauseOf, Observed, WeightOf, Leading, Seen, SumFailures, Candidates, Belief, EdgeAt;
    var after := Observed(c, o);
    FailureCounted(c, o);
    var top := SomeLeading(after, o, o.provider);
    LeadingFails(after, o, top);
    CauseInNumbers(after, o, top);
    BeliefOfLeading(Seen(after, o, top).failures,
                    SumFailures(after, o.stage, o.paymentMethod, Candidates(after, o.stage, o.paymentMethod)));
    EdgesCounted(c, o);
  }

  lemma LeadingFails(c: Counts, o: Observation, top: string)
    requires Leading(c, o, top)
    ensures Seen(c, o, top).failures > 0
  {
  }

  lemma FailureCounted(c: Counts, o: Observation)
    requires o.failed
    ensures Seen(Observed(c, o), o, o.provider).failures > 0
  {
    ProviderObserved(c, o, KeyFor(o));
  }

  lemma EdgesCounted(c: Counts, o: Observation)
    ensures WeightOf(Observed(c, o), EdgeAt(o, 0)) > 0 && WeightOf(Observed(c, o), EdgeAt(o, 1)) > 0
    ensures WeightOf(Observed(c, o), EdgeAt(o, 2)) > 0
  {
    hide Observed, WeightOf;
    EdgeObserved(c, o, EdgeAt(o, 0));
    EdgeObserved(c, o, EdgeAt(o, 1));
    EdgeObserved(c, o, EdgeAt(o, 2));
  }
}
