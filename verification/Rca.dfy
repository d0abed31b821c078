/** Counting observations per provider, and naming the provider behind a failure. */
module RootCauseAnalysis {
  import opened Collections
  import opened BatchIds

  /** Absent texts have been replaced by the source's defaults. */
  datatype Observation = Observation(stage: string, paymentMethod: string, provider: string, failureCode: string,
                                     failed: bool)

  datatype ProviderKey = ProviderKey(stage: string, paymentMethod: string, provider: string)

  datatype Stats = Stats(total: nat, failures: nat)

  datatype Node =
    | StageNode(stage: string)
    | MethodNode(paymentMethod: string)
    | ProviderNode(provider: string)
    | FailureNode(code: string)

  datatype Edge = Edge(source: Node, target: Node)

  datatype Counts = Counts(providers: map<ProviderKey, Stats>, edges: map<Edge, nat>)

  function KeyFor(o: Observation): ProviderKey {
    ProviderKey(o.stage, o.paymentMethod, o.provider)
  }

  function PathOf(o: Observation): seq<Node> {
    [StageNode(o.stage), MethodNode(o.paymentMethod), ProviderNode(o.provider), FailureNode(o.failureCode)]
  }

  function EdgeAt(o: Observation, i: nat): Edge
    requires i < 3
  {
    Edge(PathOf(o)[i], PathOf(o)[i + 1])
  }

  function StatsOf(c: Counts, k: ProviderKey): Stats {
    if k in c.providers then c.providers[k] else Stats(0, 0)
  }

  function WeightOf(c: Counts, e: Edge): nat {
    if e in c.edges then c.edges[e] else 0
  }

  function Bumped(edges: map<Edge, nat>, e: Edge): map<Edge, nat> {
    edges[e := (if e in edges then edges[e] else 0) + 1]
  }

  function Observed(c: Counts, o: Observation): Counts {
    var k := KeyFor(o);
    var s := StatsOf(c, k);
    Counts(c.providers[k := Stats(s.total + 1, s.failures + (if o.failed then 1 else 0))],
           Bumped(Bumped(Bumped(c.edges, EdgeAt(o, 0)), EdgeAt(o, 1)), EdgeAt(o, 2)))
  }

  function ObservedAll(log: seq<Observation>): Counts {
    if |log| == 0 then Counts(map[], map[]) else Observed(ObservedAll(log[..|log| - 1]), log[|log| - 1])
  }

  // ---------- Naming a cause ----------

  function Candidates(c: Counts, stage: string, paymentMethod: string): set<string> {
    set k | k in c.providers && k.stage == stage && k.paymentMethod == paymentMethod && c.providers[k].failures > 0
      :: k.provider
  }

  function FailuresOf(c: Counts, stage: string, paymentMethod: string, provider: string): nat {
    StatsOf(c, ProviderKey(stage, paymentMethod, provider)).failures
  }

  /** The order of the keys that `max` compares: failures, then observations, then the name. */
  predicate Outranks(c: Counts, stage: string, paymentMethod: string, p: string, q: string) {
    var s, t := StatsOf(c, ProviderKey(stage, paymentMethod, p)), StatsOf(c, ProviderKey(stage, paymentMethod, q));
    s.failures > t.failures
    || (s.failures == t.failures && (s.total > t.total || (s.total == t.total && TextBefore(q, p))))
  }

  ghost function SumFailures(c: Counts, stage: string, paymentMethod: string, ps: set<string>): nat {
    if ps == {} then 0
    else
      var p :| p in ps;
      FailuresOf(c, stage, paymentMethod, p) + SumFailures(c, stage, paymentMethod, ps - {p})
  }

  ghost predicate IsTop(c: Counts, stage: string, paymentMethod: string, ps: set<string>, top: string) {
    top in ps && forall q :: q in ps && q != top ==> Outranks(c, stage, paymentMethod, top, q)
  }

  /** The provider that outranks the others. */
  ghost function TopOf(c: Counts, stage: string, paymentMethod: string, ps: set<string>): (top: string)
    requires ps != {}
    ensures IsTop(c, stage, paymentMethod, ps, top)
  {
    var p :| p in ps;
    if ps == {p} then p
    else
      var q := TopOf(c, stage, paymentMethod, ps - {p});
      OutranksTotal(c, stage, paymentMethod, p, q);
      if Outranks(c, stage, paymentMethod, p, q) then
        OutranksAll(c, stage, paymentMethod, ps, p, q);
        p
      else q
  }

  function Least(x: real, y: real): real {
    if x < y then x else y
  }

  /** The confidence before evidence is added. */
  function BaseConfidence(failures: nat, totalFailures: nat): real
    requires totalFailures > 0
  {
    var capped := if failures < 3 then failures else 3;
    Least(0.99, 0.45 + 0.45 * (failures as real / totalFailures as real) + 0.05 * capped as real)
  }

  function EvidenceFor(c: Counts, o: Observation, i: nat): real
    requires i < 3
  {
    var w := WeightOf(c, EdgeAt(o, i));
    if w > 0 then Least(w as real * 0.1, 0.15) else 0.0
  }

  function FullConfidence(c: Counts, o: Observation, base: real): real {
    Least(base + EvidenceFor(c, o, 0) + EvidenceFor(c, o, 1) + EvidenceFor(c, o, 2), 0.99)
  }

  datatype Cause = UnknownCause(confidence: real) | Degradation(provider: string, confidence: real)

  class RCAEngine {
    var providers: map<ProviderKey, Stats>
    var edges: map<Edge, nat>

    ghost function State(): Counts
      reads this
    {
      Counts(providers, edges)
    }

    constructor ()
      ensures State() == ObservedAll([])
    {
      providers, edges := map[], map[];
    }

    method Observe(o: Observation)
      modifies this
      ensures State() == Observed(old(State()), o)
    {
      var k := KeyFor(o);
      var s := if k in providers then providers[k] else Stats(0, 0);
      providers := providers[k := Stats(s.total + 1, s.failures + (if o.failed then 1 else 0))];
      ghost var before := edges;
      for i := 0 to 3
        invariant providers == Observed(old(State()), o).providers
        invariant i == 0 ==> edges == before
        invariant i == 1 ==> edges == Bumped(before, EdgeAt(o, 0))
        invariant i == 2 ==> edges == Bumped(Bumped(before, EdgeAt(o, 0)), EdgeAt(o, 1))
        invariant i == 3 ==> edges == Observed(old(State()), o).edges
      {
        edges := Bumped(edges, EdgeAt(o, i));
      }
    }

    method Explain(o: Observation) returns (cause: Cause)
      ensures cause == CauseOf(State(), o)
    {
      if !o.failed {
        return UnknownCause(0.0);
      }
      var c := Counts(providers, edges);
      var candidates := Candidates(c, o.stage, o.paymentMethod);
      if candidates == {} {
        return UnknownCause(0.0);
      }
      var top, total := TopProvider(c, o.stage, o.paymentMethod, candidates);
      var failures := FailuresOf(c, o.stage, o.paymentMethod, top);
      SumAtLeast(c, o.stage, o.paymentMethod, candidates, top);
      CandidateFails(c, o.stage, o.paymentMethod, top);
      var confidence := BaseConfidence(failures, total);
      if failures < 2 || confidence < 0.65 {
        return UnknownCause(Least(confidence, 0.6));
      }
      cause := Degradation(top, FullConfidence(c, o, confidence));
    }
  }

  /** What `Explain` answers: the leading provider, when the confidence in it suffices. */
  ghost function CauseOf(c: Counts, o: Observation): Cause {
    var candidates := Candidates(c, o.stage, o.paymentMethod);
    if !o.failed || candidates == {} then UnknownCause(0.0)
    else
      var top := TopOf(c, o.stage, o.paymentMethod, candidates);
      var failures := FailuresOf(c, o.stage, o.paymentMethod, top);
      SumAtLeast(c, o.stage, o.paymentMethod, candidates, top);
      CandidateFails(c, o.stage, o.paymentMethod, top);
      var base := BaseConfidence(failures, SumFailures(c, o.stage, o.paymentMethod, candidates));
      if failures < 2 || base < 0.65 then UnknownCause(Least(base, 0.6))
      else Degradation(top, FullConfidence(c, o, base))
  }

  method TopProvider(c: Counts, stage: string, paymentMethod: string, ps: set<string>) returns (top: string, total: nat)
    requires ps != {}
    ensures top == TopOf(c, stage, paymentMethod, ps)
    ensures total == SumFailures(c, stage, paymentMethod, ps)
  {
    hide Outranks;
    top :| top in ps;
    total := FailuresOf(c, stage, paymentMethod, top);
    var todo := ps - {top};
    SumPick(c, stage, paymentMethod, ps, top);
    while todo != {}
      invariant todo <= ps && top in ps - todo
      invariant IsTop(c, stage, paymentMethod, ps - todo, top)
      invariant total + SumFailures(c, stage, paymentMethod, todo) == SumFailures(c, stage, paymentMethod, ps)
    {
      var q :| q in todo;
      SumPick(c, stage, paymentMethod, todo, q);
      total := total + FailuresOf(c, stage, paymentMethod, q);
      todo := todo - {q};
      OutranksTotal(c, stage, paymentMethod, top, q);
      if Outranks(c, stage, paymentMethod, q, top) {
        forall r | r in ps - todo && r != q
          ensures Outranks(c, stage, paymentMethod, q, r)
        {
          if r != top {
            OutranksTransitive(c, stage, paymentMethod, q, top, r);
          }
        }
        top := q;
      }
    }
    assert ps - todo == ps;
    TopUnique(c, stage, paymentMethod, ps, top, TopOf(c, stage, paymentMethod, ps));
    assert SumFailures(c, stage, paymentMethod, {}) == 0;
  }

  // ---------- The order of names ----------

  lemma OutranksTotal(c: Counts, stage: string, paymentMethod: string, p: string, q: string)
    ensures p == q || Outranks(c, stage, paymentMethod, p, q) || Outranks(c, stage, paymentMethod, q, p)
    ensures !(Outranks(c, stage, paymentMethod, p, q) && Outranks(c, stage, paymentMethod, q, p))
  {
    TextTotal(p, q);
  }

  lemma OutranksTransitive(c: Counts, stage: string, paymentMethod: string, p: string, q: string, r: string)
    requires Outranks(c, stage, paymentMethod, p, q) && Outranks(c, stage, paymentMethod, q, r)
    ensures Outranks(c, stage, paymentMethod, p, r)
  {
    if TextBefore(q, p) && TextBefore(r, q) {
      TextTransitive(r, q, p);
    }
  }

  lemma OutranksAll(c: Counts, stage: string, paymentMethod: string, ps: set<string>, p: string, q: string)
    requires p in ps && IsTop(c, stage, paymentMethod, ps - {p}, q) && Outranks(c, stage, paymentMethod, p, q)
    ensures IsTop(c, stage, paymentMethod, ps, p)
  {
    hide Outranks;
    forall r | r in ps && r != p
      ensures Outranks(c, stage, paymentMethod, p, r)
    {
      if r != q {
        OutranksTransitive(c, stage, paymentMethod, p, q, r);
      }
    }
  }

  lemma TopUnique(c: Counts, stage: string, paymentMethod: string, ps: set<string>, p: string, q: string)
    requires IsTop(c, stage, paymentMethod, ps, p) && IsTop(c, stage, paymentMethod, ps, q)
    ensures p == q
  {
    OutranksTotal(c, stage, paymentMethod, p, q);
  }

  // ---------- Sums over providers ----------

  lemma {:induction false} SumPick(c: Counts, stage: string, paymentMethod: string, ps: set<string>, p: string)
    requires p in ps
    ensures SumFailures(c, stage, paymentMethod, ps) ==
            FailuresOf(c, stage, paymentMethod, p) + SumFailures(c, stage, paymentMethod, ps - {p})
    decreases |ps|
  {
    hide FailuresOf;
    var x :| x in ps && SumFailures(c, stage, paymentMethod, ps) ==
                        FailuresOf(c, stage, paymentMethod, x) + SumFailures(c, stage, paymentMethod, ps - {x});
    if x != p {
      SumPick(c, stage, paymentMethod, ps - {x}, p);
      SumPick(c, stage, paymentMethod, ps - {p}, x);
      assert ps - {x} - {p} == ps - {p} - {x};
    }
  }

  lemma SumAtLeast(c: Counts, stage: string, paymentMethod: string, ps: set<string>, p: string)
    requires p in ps
    ensures SumFailures(c, stage, paymentMethod, ps) >= FailuresOf(c, stage, paymentMethod, p)
  {
    SumPick(c, stage, paymentMethod, ps, p);
  }

  lemma CandidateFails(c: Counts, stage: string, paymentMethod: string, p: string)
    requires p in Candidates(c, stage, paymentMethod)
    ensures FailuresOf(c, stage, paymentMethod, p) > 0
  {
  }

  /** The pigeonhole bound: all failures together are at most the top count for each provider. */
  lemma {:induction false} SumAtMost(c: Counts, stage: string, paymentMethod: string, ps: set<string>, bound: nat)
    requires forall p :: p in ps ==> FailuresOf(c, stage, paymentMethod, p) <= bound
    ensures SumFailures(c, stage, paymentMethod, ps) <= |ps| * bound
    decreases |ps|
  {
    hide FailuresOf;
    if ps != {} {
      var p :| p in ps;
      SumPick(c, stage, paymentMethod, ps, p);
      SumAtMost(c, stage, paymentMethod, ps - {p}, bound);
      assert |ps - {p}| == |ps| - 1;
      assert |ps| * bound == (|ps| - 1) * bound + bound;
    }
  }

  // ---------- When a provider is named ----------

  lemma ShareBound(f: nat, total: nat, num: nat)
    requires total > 0
    ensures (f as real / total as real >= num as real / 9.0) <==> 9 * f >= num * total
  {
    var share := f as real / total as real;
    assert share * total as real == f as real;
    if 9 * f >= num * total {
      Divide(num as real / 9.0, f as real, total as real);
    }
    if share >= num as real / 9.0 {
      Multiply(num as real / 9.0, share, total as real);
    }
  }

  lemma Divide(x: real, f: real, t: real)
    requires t > 0.0 && f >= x * t
    ensures f / t >= x
  {
    var q := (f - x * t) / t;
    assert q >= 0.0;
    assert f / t == x + q;
  }

  lemma Multiply(x: real, y: real, t: real)
    requires t > 0.0 && y >= x
    ensures y * t >= x * t
  {
  }

  /** The confidence suffices exactly for a share of two ninths of two failures, one ninth of more. */
  lemma ConfidenceIff(f: nat, total: nat)
    requires total > 0 && f >= 2
    ensures BaseConfidence(f, total) >= 0.65 <==> 9 * f >= (if f == 2 then 2 else 1) * total
  {
    ShareBound(f, total, if f == 2 then 2 else 1);
  }

  /**
   For any observations: a failure is blamed on the provider with the greatest failures,
   observations and name exactly when that provider failed twice or more and has enough of
   all failures of the stage and method.
   */
  lemma NamedIff(c: Counts, o: Observation, top: string)
    requires o.failed && IsTop(c, o.stage, o.paymentMethod, Candidates(c, o.stage, o.paymentMethod), top)
    ensures var f := FailuresOf(c, o.stage, o.paymentMethod, top);
            var total := SumFailures(c, o.stage, o.paymentMethod, Candidates(c, o.stage, o.paymentMethod));
            && (CauseOf(c, o).Degradation? <==> f >= 2 && 9 * f >= (if f == 2 then 2 else 1) * total)
            && (CauseOf(c, o).Degradation? ==> CauseOf(c, o).provider == top)
  {
    hide BaseConfidence, FullConfidence, FailuresOf, Outranks, Candidates, SumFailures, TopOf;
    var candidates := Candidates(c, o.stage, o.paymentMethod);
    TopUnique(c, o.stage, o.paymentMethod, candidates, top, TopOf(c, o.stage, o.paymentMethod, candidates));
    var f, total := FailuresOf(c, o.stage, o.paymentMethod, top), SumFailures(c, o.stage, o.paymentMethod, candidates);
    SumAtLeast(c, o.stage, o.paymentMethod, candidates, top);
    CandidateFails(c, o.stage, o.paymentMethod, top);
    if f >= 2 {
      ConfidenceIff(f, total);
    }
  }

  /** With at most four failing providers two failures of the top one are enough, always. */
  lemma NamedAmongFour(c: Counts, o: Observation, top: string)
    requires o.failed && IsTop(c, o.stage, o.paymentMethod, Candidates(c, o.stage, o.paymentMethod), top)
    requires |Candidates(c, o.stage, o.paymentMethod)| <= 4
    ensures CauseOf(c, o).Degradation? <==> FailuresOf(c, o.stage, o.paymentMethod, top) >= 2
    ensures CauseOf(c, o).Degradation? ==> CauseOf(c, o).provider == top
  {
    hide CauseOf, Candidates;
    var ps := Candidates(c, o.stage, o.paymentMethod);
    var f := FailuresOf(c, o.stage, o.paymentMethod, top);
    NamedIff(c, o, top);
    forall p | p in ps
      ensures FailuresOf(c, o.stage, o.paymentMethod, p) <= f
    {
    }
    SumAtMost(c, o.stage, o.paymentMethod, ps, f);
    assert |ps| * f <= 4 * f;
  }

  lemma {:induction false} SumOfEquals(c: Counts, stage: string, paymentMethod: string, ps: set<string>, each: nat)
    requires forall p :: p in ps ==> FailuresOf(c, stage, paymentMethod, p) == each
    ensures SumFailures(c, stage, paymentMethod, ps) == |ps| * each
    decreases |ps|
  {
    hide FailuresOf;
    if ps != {} {
      var p :| p in ps;
      SumPick(c, stage, paymentMethod, ps, p);
      SumOfEquals(c, stage, paymentMethod, ps - {p}, each);
      assert |ps - {p}| == |ps| - 1;
      assert |ps| * each == (|ps| - 1) * each + each;
    }
  }

  /** Four is the limit: of five or more providers that failed twice each, none is named. */
  lemma PeersHideEachOther(c: Counts, o: Observation)
    requires o.failed && |Candidates(c, o.stage, o.paymentMethod)| >= 5
    requires forall p :: p in Candidates(c, o.stage, o.paymentMethod) ==>
                           FailuresOf(c, o.stage, o.paymentMethod, p) == 2
    ensures CauseOf(c, o).UnknownCause?
  {
    hide CauseOf, Candidates, FailuresOf;
    var ps := Candidates(c, o.stage, o.paymentMethod);
    SumOfEquals(c, o.stage, o.paymentMethod, ps, 2);
    NamedIff(c, o, TopOf(c, o.stage, o.paymentMethod, ps));
  }

  // ---------- The order of observations does not matter ----------

  function ForProvider(k: ProviderKey): Observation -> bool {
    (o: Observation) => KeyFor(o) == k
  }

  function FailedAt(k: ProviderKey): Observation -> bool {
    (o: Observation) => KeyFor(o) == k && o.failed
  }

  function Through(e: Edge): Observation -> bool {
    (o: Observation) => e == EdgeAt(o, 0) || e == EdgeAt(o, 1) || e == EdgeAt(o, 2)
  }

  lemma EdgeObserved(c: Counts, o: Observation, e: Edge)
    ensures WeightOf(Observed(c, o), e) == WeightOf(c, e) + if Through(e)(o) then 1 else 0
    ensures e in Observed(c, o).edges <==> e in c.edges || Through(e)(o)
  {
    hide StatsOf, KeyFor;
    assert EdgeAt(o, 0) != EdgeAt(o, 1) && EdgeAt(o, 1) != EdgeAt(o, 2) && EdgeAt(o, 0) != EdgeAt(o, 2);
  }

  lemma ProviderObserved(c: Counts, o: Observation, k: ProviderKey)
    ensures var s := StatsOf(c, k);
            StatsOf(Observed(c, o), k) == Stats(s.total + if ForProvider(k)(o) then 1 else 0,
                                                s.failures + if FailedAt(k)(o) then 1 else 0)
    ensures k in Observed(c, o).providers <==> k in c.providers || ForProvider(k)(o)
  {
    hide Bumped, EdgeAt;
  }

  /** Every count is the number of observations that bear on it. */
  lemma {:induction false} CountsAreCounts(log: seq<Observation>, k: ProviderKey, e: Edge)
    ensures var c := ObservedAll(log);
            && StatsOf(c, k) == Stats(|Filter(ForProvider(k), log)|, |Filter(FailedAt(k), log)|)
            && (k in c.providers <==> |Filter(ForProvider(k), log)| > 0)
            && WeightOf(c, e) == |Filter(Through(e), log)|
            && (e in c.edges <==> |Filter(Through(e), log)| > 0)
  {
    hide Observed, StatsOf, WeightOf, ForProvider, FailedAt, Through;
    if |log| == 0 {
      NothingCounted(k, e);
    } else {
      CountsAreCounts(log[..|log| - 1], k, e);
      EdgeObserved(ObservedAll(log[..|log| - 1]), log[|log| - 1], e);
      ProviderObserved(ObservedAll(log[..|log| - 1]), log[|log| - 1], k);
    }
  }

  lemma NothingCounted(k: ProviderKey, e: Edge)
    ensures StatsOf(Counts(map[], map[]), k) == Stats(0, 0) && WeightOf(Counts(map[], map[]), e) == 0
  {
  }

  /** What is counted, and so every explanation, is the same for any order of the observations. */
  lemma CountsIgnoreOrder(a: seq<Observation>, b: seq<Observation>)
    requires multiset(a) == multiset(b)
    ensures ObservedAll(a) == ObservedAll(b)
  {
    hide Observed, Filter, ObservedAll, ForProvider, FailedAt, Through;
    var x, y := ObservedAll(a), ObservedAll(b);
    forall k
      ensures StatsOf(x, k) == StatsOf(y, k) && (k in x.providers <==> k in y.providers)
    {
      CountsAreCounts(a, k, Edge(FailureNode(""), FailureNode("")));
      CountsAreCounts(b, k, Edge(FailureNode(""), FailureNode("")));
      SameLength(ForProvider(k), a, b);
      SameLength(FailedAt(k), a, b);
    }
    forall e
      ensures WeightOf(x, e) == WeightOf(y, e) && (e in x.edges <==> e in y.edges)
    {
      CountsAreCounts(a, ProviderKey("", "", ""), e);
      CountsAreCounts(b, ProviderKey("", "", ""), e);
      SameLength(Through(e), a, b);
    }
    SameCounts(x, y);
  }

  lemma SameLength(p: Observation -> bool, a: seq<Observation>, b: seq<Observation>)
    requires multiset(a) == multiset(b)
    ensures |Filter(p, a)| == |Filter(p, b)|
  {
    FilterPermutation(p, a, b);
    assert |multiset(Filter(p, a))| == |multiset(Filter(p, b))|;
  }

  lemma SameCounts(x: Counts, y: Counts)
    requires forall k :: StatsOf(x, k) == StatsOf(y, k) && (k in x.providers <==> k in y.providers)
    requires forall e :: WeightOf(x, e) == WeightOf(y, e) && (e in x.edges <==> e in y.edges)
    ensures x == y
  {
    forall k | k in x.providers
      ensures x.providers[k] == y.providers[k]
    {
      assert StatsOf(x, k) == StatsOf(y, k);
    }
    forall e | e in x.edges
      ensures x.edges[e] == y.edges[e]
    {
      assert WeightOf(x, e) == WeightOf(y, e);
    }
    assert x.providers == y.providers && x.edges == y.edges;
  }
}
