/** When the order in which beliefs arrive matters to validation and aggregation, and when it does not. */
module ArrivalOrder {
  import opened Collections
  import opened Consensus

  // ---------- What the order could touch ----------

  /** As `gather_beliefs` collects them: one belief for each agent. */
  predicate DistinctAgents(beliefs: seq<Belief>) {
    forall i, j :: 0 <= i < j < |beliefs| ==> beliefs[i].agentId != beliefs[j].agentId
  }

  /** A belief whose id the validator looks at: it fits, and its agent is known and not quarantined. */
  predicate Eligible(cfg: RecoveryConfig, m: Memory, b: Belief, tx: string, version: int) {
    b.agentId !in m.quarantined && Fits(b, tx, version) && b.agentId in cfg.agentWeights
  }

  /** No two beliefs that would be taken share an id. */
  predicate TakenApart(cfg: RecoveryConfig, m: Memory, beliefs: seq<Belief>, tx: string, version: int) {
    forall i, j :: 0 <= i < |beliefs| && 0 <= j < |beliefs| && i != j
                   && Takes(cfg, m, beliefs[i], tx, version) && Takes(cfg, m, beliefs[j], tx, version) ==>
                     beliefs[i].beliefId != beliefs[j].beliefId
  }

  /** No belief that would be taken shares its id with any other whose id is looked at. */
  predicate Undisturbed(cfg: RecoveryConfig, m: Memory, beliefs: seq<Belief>, tx: string, version: int) {
    forall i, j :: 0 <= i < |beliefs| && 0 <= j < |beliefs| && i != j
                   && Takes(cfg, m, beliefs[i], tx, version) && Eligible(cfg, m, beliefs[j], tx, version) ==>
                     beliefs[i].beliefId != beliefs[j].beliefId
  }

  lemma UndisturbedApart(cfg: RecoveryConfig, m: Memory, beliefs: seq<Belief>, tx: string, version: int)
    requires Undisturbed(cfg, m, beliefs, tx, version)
    ensures TakenApart(cfg, m, beliefs, tx, version)
  {
  }

  // ---------- A round told without an order ----------

  function TakenIds(cfg: RecoveryConfig, m: Memory, beliefs: seq<Belief>, tx: string, version: int): set<string> {
    set b | b in beliefs && Takes(cfg, m, b, tx, version) :: b.beliefId
  }

  function FaultyAgents(cfg: RecoveryConfig, m: Memory, beliefs: seq<Belief>, tx: string, version: int): set<string> {
    set b | b in beliefs && Faulty(cfg, m, b, tx, version) :: b.agentId
  }

  /** The validator's memory after a round, told without an order. */
  ghost predicate AfterRound(cfg: RecoveryConfig, m: Memory, beliefs: seq<Belief>, tx: string, version: int,
                             r: Memory)
  {
    var faulty := FaultyAgents(cfg, m, beliefs, tx, version);
    && r.seen == m.seen + TakenIds(cfg, m, beliefs, tx, version)
    && r.bad.Keys == m.bad.Keys + faulty
    && (forall a :: a in r.bad.Keys ==> r.bad[a] == BadCount(m, a) + (if a in faulty then 1 else 0))
    && r.quarantined == m.quarantined + set a | a in faulty && BadCount(m, a) >= 1
  }

  lemma TakenIdsSnoc(cfg: RecoveryConfig, m: Memory, p: seq<Belief>, b: Belief, tx: string, version: int)
    ensures TakenIds(cfg, m, p + [b], tx, version) ==
            TakenIds(cfg, m, p, tx, version) + (if Takes(cfg, m, b, tx, version) then {b.beliefId} else {})
    ensures FaultyAgents(cfg, m, p + [b], tx, version) ==
            FaultyAgents(cfg, m, p, tx, version) + (if Faulty(cfg, m, b, tx, version) then {b.agentId} else {})
  {
    hide Takes, Faulty;
    assert b in p + [b];
    assert forall c :: c in p ==> c in p + [b];
  }

  /** A belief of another agent is judged as if nothing had happened, but for the ids taken since. */
  lemma JudgedAlone(cfg: RecoveryConfig, m: Memory, p: seq<Belief>, b: Belief, tx: string, version: int, r: Memory)
    requires AfterRound(cfg, m, p, tx, version, r)
    requires forall c :: c in p ==> c.agentId != b.agentId
    ensures BadCount(r, b.agentId) == BadCount(m, b.agentId)
    ensures b.agentId !in FaultyAgents(cfg, m, p, tx, version)
    ensures !Takes(cfg, m, b, tx, version) || b.beliefId !in TakenIds(cfg, m, p, tx, version) ==>
              && Faulty(cfg, r, b, tx, version) == Faulty(cfg, m, b, tx, version)
              && Takes(cfg, r, b, tx, version) == Takes(cfg, m, b, tx, version)
    ensures !Eligible(cfg, m, b, tx, version) || b.beliefId !in TakenIds(cfg, m, p, tx, version) ==>
              Judged(cfg, r, b, tx, version) == Judged(cfg, m, b, tx, version)
  {
    hide TakenIds;
    assert b.agentId !in FaultyAgents(cfg, m, p, tx, version);
  }

  lemma BeginsApart(beliefs: seq<Belief>, b: Belief)
    requires DistinctAgents(beliefs + [b])
    ensures DistinctAgents(beliefs)
    ensures forall c :: c in beliefs ==> c.agentId != b.agentId
  {
    var all := beliefs + [b];
    assert forall i :: 0 <= i < |beliefs| ==> all[i] == beliefs[i];
    forall c | c in beliefs
      ensures c.agentId != b.agentId
    {
      var i :| 0 <= i < |beliefs| && beliefs[i] == c;
      assert all[i].agentId != all[|beliefs|].agentId;
    }
  }

  lemma NotTakenBefore(cfg: RecoveryConfig, m: Memory, p: seq<Belief>, b: Belief, tx: string, version: int)
    ensures TakenApart(cfg, m, p + [b], tx, version) && Takes(cfg, m, b, tx, version) ==>
              b.beliefId !in TakenIds(cfg, m, p, tx, version)
    ensures Undisturbed(cfg, m, p + [b], tx, version) && Eligible(cfg, m, b, tx, version) ==>
              b.beliefId !in TakenIds(cfg, m, p, tx, version)
    ensures TakenApart(cfg, m, p + [b], tx, version) ==> TakenApart(cfg, m, p, tx, version)
    ensures Undisturbed(cfg, m, p + [b], tx, version) ==> Undisturbed(cfg, m, p, tx, version)
  {
    hide Takes, Eligible;
    var all := p + [b];
    assert all[|p|] == b && forall i :: 0 <= i < |p| ==> all[i] == p[i];
    if b.beliefId in TakenIds(cfg, m, p, tx, version) {
      var c :| c in p && Takes(cfg, m, c, tx, version) && c.beliefId == b.beliefId;
      var i :| 0 <= i < |p| && p[i] == c;
      assert all[i].beliefId == all[|p|].beliefId && i != |p|;
    }
  }

  lemma {:induction false} RoundMemory(cfg: RecoveryConfig, m: Memory, beliefs: seq<Belief>, tx: string, version: int)
    requires DistinctAgents(beliefs) && TakenApart(cfg, m, beliefs, tx, version)
    ensures AfterRound(cfg, m, beliefs, tx, version, MemoryAfter(cfg, m, beliefs, tx, version))
  {
    hide Takes, Faulty, AfterRound, Remembered, TakenIds, FaultyAgents, TakenApart, DistinctAgents, BadCount, Eligible;
    if |beliefs| == 0 {
      EmptyRound(cfg, m, tx, version);
      assert beliefs == [];
    } else {
      var p, b := beliefs[..|beliefs| - 1], beliefs[|beliefs| - 1];
      assert beliefs == p + [b];
      BeginsApart(p, b);
      NotTakenBefore(cfg, m, p, b, tx, version);
      RoundMemory(cfg, m, p, tx, version);
      var r := MemoryAfter(cfg, m, p, tx, version);
      JudgedAlone(cfg, m, p, b, tx, version, r);
      StepStatic(cfg, m, p, b, tx, version, r);
    }
  }

  /** An undisturbed round judges every belief by what the validator knew before the round. */
  lemma {:induction false} RoundStatic(cfg: RecoveryConfig, m: Memory, beliefs: seq<Belief>, tx: string, version: int)
    requires DistinctAgents(beliefs) && Undisturbed(cfg, m, beliefs, tx, version)
    ensures AfterRound(cfg, m, beliefs, tx, version, MemoryAfter(cfg, m, beliefs, tx, version))
    ensures forall i :: 0 <= i < |beliefs| ==>
                          Verdicts(cfg, m, beliefs, tx, version)[i] == Judged(cfg, m, beliefs[i], tx, version)
  {
    hide Judged, Faulty, AfterRound, Remembered, Takes, Eligible, TakenIds, TakenApart, Undisturbed, DistinctAgents;
    UndisturbedApart(cfg, m, beliefs, tx, version);
    RoundMemory(cfg, m, beliefs, tx, version);
    if |beliefs| == 0 {
    } else {
      var p, b := beliefs[..|beliefs| - 1], beliefs[|beliefs| - 1];
      assert beliefs == p + [b];
      BeginsApart(p, b);
      NotTakenBefore(cfg, m, p, b, tx, version);
      RoundStatic(cfg, m, p, tx, version);
      JudgedAlone(cfg, m, p, b, tx, version, MemoryAfter(cfg, m, p, tx, version));
    }
  }

  lemma EmptyRound(cfg: RecoveryConfig, m: Memory, tx: string, version: int)
    ensures AfterRound(cfg, m, [], tx, version, m)
  {
    assert TakenIds(cfg, m, [], tx, version) == {};
    assert FaultyAgents(cfg, m, [], tx, version) == {};
  }

  lemma StepStatic(cfg: RecoveryConfig, m: Memory, p: seq<Belief>, b: Belief, tx: string, version: int, r: Memory)
    requires AfterRound(cfg, m, p, tx, version, r)
    requires Takes(cfg, r, b, tx, version) == Takes(cfg, m, b, tx, version)
    requires Faulty(cfg, r, b, tx, version) == Faulty(cfg, m, b, tx, version)
    requires BadCount(r, b.agentId) == BadCount(m, b.agentId) && b.agentId !in FaultyAgents(cfg, m, p, tx, version)
    ensures AfterRound(cfg, m, p + [b], tx, version, Remembered(cfg, r, b, tx, version))
  {
    hide Takes, Faulty, FaultyAgents, TakenIds;
    TakenIdsSnoc(cfg, m, p, b, tx, version);
    var r', n := Remembered(cfg, r, b, tx, version), BadCount(m, b.agentId);
    var faulty := FaultyAgents(cfg, m, p, tx, version);
    var faulty' := FaultyAgents(cfg, m, p + [b], tx, version);
    if Faulty(cfg, m, b, tx, version) {
      FaultyNotTaken(cfg, m, b, tx, version);
      assert (set a | a in faulty' && BadCount(m, a) >= 1) ==
             (set a | a in faulty && BadCount(m, a) >= 1) + (if n >= 1 then {b.agentId} else {});
    } else {
      assert faulty' == faulty;
      assert r'.bad == r.bad && r'.quarantined == r.quarantined;
    }
  }

  lemma FaultyNotTaken(cfg: RecoveryConfig, m: Memory, b: Belief, tx: string, version: int)
    ensures Faulty(cfg, m, b, tx, version) ==> !Takes(cfg, m, b, tx, version)
  {
  }

  lemma AfterRoundUnique(cfg: RecoveryConfig, m: Memory, a: seq<Belief>, b: seq<Belief>, tx: string, version: int,
                         r1: Memory, r2: Memory)
    requires forall x :: x in a <==> x in b
    requires AfterRound(cfg, m, a, tx, version, r1) && AfterRound(cfg, m, b, tx, version, r2)
    ensures r1 == r2
  {
    assert TakenIds(cfg, m, a, tx, version) == TakenIds(cfg, m, b, tx, version);
    assert FaultyAgents(cfg, m, a, tx, version) == FaultyAgents(cfg, m, b, tx, version);
    assert r1.bad == r2.bad;
  }

  function TakesIn(cfg: RecoveryConfig, m: Memory, tx: string, version: int): Belief -> bool {
    (b: Belief) => Takes(cfg, m, b, tx, version)
  }

  function ReportIn(cfg: RecoveryConfig, m: Memory, tx: string, version: int,
                    decision: Recommendation): Belief -> AgentResult
  {
    (b: Belief) => Settled(ResultOf(b, Judged(cfg, m, b, tx, version)), decision)
  }

  lemma {:induction false} ValidStatic(cfg: RecoveryConfig, m: Memory, beliefs: seq<Belief>, verdicts: seq<Verdict>,
                                       tx: string, version: int)
    requires |verdicts| == |beliefs|
    requires forall i :: 0 <= i < |beliefs| ==> verdicts[i] == Judged(cfg, m, beliefs[i], tx, version)
    ensures ValidOnes(beliefs, verdicts) == Filter(TakesIn(cfg, m, tx, version), beliefs)
  {
    hide Judged;
    if |beliefs| == 0 {
    } else {
      ValidStatic(cfg, m, beliefs[..|beliefs| - 1], verdicts[..|beliefs| - 1], tx, version);
    }
  }

  lemma ResultsStatic(cfg: RecoveryConfig, m: Memory, beliefs: seq<Belief>, verdicts: seq<Verdict>, tx: string,
                      version: int, d: Recommendation)
    requires |verdicts| == |beliefs|
    requires forall i :: 0 <= i < |beliefs| ==> verdicts[i] == Judged(cfg, m, beliefs[i], tx, version)
    ensures ResultsOf(beliefs, verdicts, d) == Map(ReportIn(cfg, m, tx, version, d), beliefs)
  {
    hide Judged, Settled;
  }

  lemma RatiosPermuted(cfg: RecoveryConfig, a: seq<Belief>, b: seq<Belief>)
    requires multiset(a) == multiset(b)
    ensures forall x :: Ratio(cfg, a, x) == Ratio(cfg, b, x) && Support(cfg, a, x) == Support(cfg, b, x)
    ensures Voted(a) == Voted(b) && |a| == |b|
  {
    SumByPermutation(Weighing(cfg), a, b);
    forall x
      ensures Support(cfg, a, x) == Support(cfg, b, x)
    {
      SumByPermutation(Backing(cfg, x), a, b);
    }
    assert |a| == |multiset(a)| == |multiset(b)| == |b|;
    assert forall x :: x in a <==> x in multiset(a);
    assert forall x :: x in b <==> x in multiset(b);
  }

  lemma {:induction false} BestPermuted(cfg: RecoveryConfig, a: seq<Belief>, b: seq<Belief>, n: nat)
    requires n <= |SAFETY| && Voted(a) == Voted(b)
    requires forall x :: Ratio(cfg, a, x) == Ratio(cfg, b, x) && Support(cfg, a, x) == Support(cfg, b, x)
    ensures BestOf(cfg, a, n) == BestOf(cfg, b, n)
  {
    hide Ratio, Support, Voted;
    if n == 0 {
    } else {
      BestPermuted(cfg, a, b, n - 1);
    }
  }

  ghost predicate SameOutcome(x: Option<ConsensusResult>, y: Option<ConsensusResult>) {
    match (x, y)
    case (None, None) => true
    case (Some(r), Some(s)) => r.(results := []) == s.(results := []) && multiset(r.results) == multiset(s.results)
    case _ => false
  }

  lemma PermutedAgents(a: seq<Belief>, b: seq<Belief>)
    requires multiset(a) == multiset(b) && DistinctAgents(a)
    ensures DistinctAgents(b)
  {
    forall i, j | 0 <= i < j < |b|
      ensures b[i].agentId != b[j].agentId
    {
      var k, l := TwoPlaces(a, b, i, j);
    }
  }

  lemma PermutedTaken(cfg: RecoveryConfig, m: Memory, a: seq<Belief>, b: seq<Belief>, tx: string, version: int)
    requires multiset(a) == multiset(b) && TakenApart(cfg, m, a, tx, version)
    ensures TakenApart(cfg, m, b, tx, version)
  {
    hide Takes;
    forall i, j | 0 <= i < |b| && 0 <= j < |b| && i != j
                  && Takes(cfg, m, b[i], tx, version) && Takes(cfg, m, b[j], tx, version)
      ensures b[i].beliefId != b[j].beliefId
    {
      var k, l := TwoPlaces(a, b, i, j);
    }
  }

  lemma PermutedUndisturbed(cfg: RecoveryConfig, m: Memory, a: seq<Belief>, b: seq<Belief>, tx: string, version: int)
    requires multiset(a) == multiset(b) && Undisturbed(cfg, m, a, tx, version)
    ensures Undisturbed(cfg, m, b, tx, version)
  {
    hide Takes, Eligible;
    forall i, j | 0 <= i < |b| && 0 <= j < |b| && i != j
                  && Takes(cfg, m, b[i], tx, version) && Eligible(cfg, m, b[j], tx, version)
      ensures b[i].beliefId != b[j].beliefId
    {
      var k, l := TwoPlaces(a, b, i, j);
    }
  }

  lemma PermutedShape(cfg: RecoveryConfig, m: Memory, a: seq<Belief>, b: seq<Belief>, tx: string, version: int)
    requires multiset(a) == multiset(b) && DistinctAgents(a)
    ensures DistinctAgents(b)
    ensures TakenApart(cfg, m, a, tx, version) ==> TakenApart(cfg, m, b, tx, version)
    ensures Undisturbed(cfg, m, a, tx, version) ==> Undisturbed(cfg, m, b, tx, version)
    ensures forall x :: x in a <==> x in b
  {
    hide TakenApart, Undisturbed, DistinctAgents;
    assert forall x :: x in a <==> x in multiset(a);
    assert forall x :: x in b <==> x in multiset(b);
    PermutedAgents(a, b);
    if TakenApart(cfg, m, a, tx, version) {
      PermutedTaken(cfg, m, a, b, tx, version);
    }
    if Undisturbed(cfg, m, a, tx, version) {
      PermutedUndisturbed(cfg, m, a, b, tx, version);
    }
  }

  /** Two places of a permutation are two places of what it permutes. */
  lemma TwoPlaces(a: seq<Belief>, b: seq<Belief>, i: nat, j: nat) returns (k: nat, l: nat)
    requires multiset(a) == multiset(b) && i < |b| && j < |b| && i != j
    ensures k < |a| && l < |a| && k != l && a[k] == b[i] && a[l] == b[j]
  {
    assert b[i] in multiset(a) && b[j] in multiset(a);
    k :| 0 <= k < |a| && a[k] == b[i];
    if b[j] != b[i] {
      l :| 0 <= l < |a| && a[l] == b[j];
    } else {
      CountTwo(b, i, j);
      l := SecondPlace(a, k);
    }
  }

  lemma SecondPlace(a: seq<Belief>, k: nat) returns (l: nat)
    requires k < |a| && multiset(a)[a[k]] >= 2
    ensures l < |a| && l != k && a[l] == a[k]
  {
    var rest := a[..k] + a[k + 1..];
    assert multiset(a) == multiset(rest) + multiset{a[k]} by {
      assert a == a[..k] + [a[k]] + a[k + 1..];
    }
    assert a[k] in multiset(rest);
    var n :| 0 <= n < |rest| && rest[n] == a[k];
    l := if n < k then n else n + 1;
  }

  lemma CountTwo(b: seq<Belief>, i: nat, j: nat)
    requires i < |b| && j < |b| && i != j && b[i] == b[j]
    ensures multiset(b)[b[i]] >= 2
  {
    var p, q := if i < j then i else j, if i < j then j else i;
    assert b == b[..p] + [b[p]] + b[p + 1..q] + [b[q]] + b[q + 1..];
  }

  /**
   Whatever the validator has seen before: the beliefs of an undisturbed round may come in any
   order. The decision, its status, all ratios and counts, each agent's standing with its
   reason, and the validator's memory afterwards are the same.
   */
  lemma OrderOfArrival(cfg: RecoveryConfig, m: Memory, a: seq<Belief>, b: seq<Belief>, tx: string, version: int)
    requires multiset(a) == multiset(b) && DistinctAgents(a) && Undisturbed(cfg, m, a, tx, version)
    ensures SameOutcome(Aggregated(cfg, m, a, tx, version), Aggregated(cfg, m, b, tx, version))
    ensures MemoryAfter(cfg, m, a, tx, version) == MemoryAfter(cfg, m, b, tx, version)
  {
    hide Judged, Verdicts, MemoryAfter, ValidOnes, AfterRound, DistinctAgents, Undisturbed, TakenApart, Ratio, Voted;
    hide BestOf, ResultsOf, Support;
    PermutedShape(cfg, m, a, b, tx, version);
    RoundStatic(cfg, m, a, tx, version);
    RoundStatic(cfg, m, b, tx, version);
    AfterRoundUnique(cfg, m, a, b, tx, version,
                     MemoryAfter(cfg, m, a, tx, version), MemoryAfter(cfg, m, b, tx, version));
    var va, vb := Verdicts(cfg, m, a, tx, version), Verdicts(cfg, m, b, tx, version);
    ValidStatic(cfg, m, a, va, tx, version);
    ValidStatic(cfg, m, b, vb, tx, version);
    FilterPermutation(TakesIn(cfg, m, tx, version), a, b);
    var xa, xb := ValidOnes(a, va), ValidOnes(b, vb);
    RatiosPermuted(cfg, xa, xb);
    BestPermuted(cfg, xa, xb, |SAFETY|);
    assert Decided(cfg, xa) == Decided(cfg, xb);
    if Decided(cfg, xa).Some? {
      ReportPermuted(cfg, m, a, b, va, vb, tx, version, Decided(cfg, xa).value);
    }
  }

  lemma CountPermuted(r: seq<AgentResult>, s: seq<AgentResult>, st: Standing)
    requires multiset(r) == multiset(s)
    ensures CountStanding(r, st) == CountStanding(s, st)
  {
    MapPermutation((x: AgentResult) => x.verdict.standing, r, s);
  }

  lemma ReportPermuted(cfg: RecoveryConfig, m: Memory, a: seq<Belief>, b: seq<Belief>, va: seq<Verdict>,
                       vb: seq<Verdict>,
                       tx: string, version: int, d: Decision)
    requires multiset(a) == multiset(b) && |va| == |a| && |vb| == |b|
    requires forall i :: 0 <= i < |a| ==> va[i] == Judged(cfg, m, a[i], tx, version)
    requires forall i :: 0 <= i < |b| ==> vb[i] == Judged(cfg, m, b[i], tx, version)
    requires var xa, xb := ValidOnes(a, va), ValidOnes(b, vb);
             && |xa| == |xb| && Voted(xa) == Voted(xb) && forall x :: Ratio(cfg, xa, x) == Ratio(cfg, xb, x)
    ensures SameOutcome(Some(Report(cfg, a, va, tx, version, d)), Some(Report(cfg, b, vb, tx, version, d)))
  {
    hide Judged, ValidOnes, Ratio, Voted, ResultsOf, CountStanding;
    ResultsStatic(cfg, m, a, va, tx, version, d.action);
    ResultsStatic(cfg, m, b, vb, tx, version, d.action);
    MapPermutation(ReportIn(cfg, m, tx, version, d.action), a, b);
    CountPermuted(ResultsOf(a, va, d.action), ResultsOf(b, vb, d.action), Rejected);
    CountPermuted(ResultsOf(a, va, d.action), ResultsOf(b, vb, d.action), Quarantined);
    assert |a| == |multiset(a)| == |multiset(b)| == |b|;
    assert RatiosOf(cfg, ValidOnes(a, va)) == RatiosOf(cfg, ValidOnes(b, vb));
  }

  // ---------- The conditions are exact ----------

  lemma {:induction false} MemoryConcat(cfg: RecoveryConfig, m: Memory, p: seq<Belief>, q: seq<Belief>, tx: string,
                                        version: int)
    ensures MemoryAfter(cfg, m, p + q, tx, version) ==
            MemoryAfter(cfg, MemoryAfter(cfg, m, p, tx, version), q, tx, version)
  {
    hide Remembered;
    if |q| == 0 {
      assert p + q == p;
    } else {
      assert (p + q)[..|p + q| - 1] == p + q[..|q| - 1];
      MemoryConcat(cfg, m, p, q[..|q| - 1], tx, version);
    }
  }

  /** Beliefs of other agents leave an agent's count alone. */
  lemma {:induction false} CountUntouched(cfg: RecoveryConfig, m: Memory, q: seq<Belief>, agent: string, tx: string,
                                          version: int)
    requires forall b :: b in q ==> b.agentId != agent
    ensures BadCount(MemoryAfter(cfg, m, q, tx, version), agent) == BadCount(m, agent)
  {
    hide Faulty, Takes;
    if |q| == 0 {
    } else {
      CountUntouched(cfg, m, q[..|q| - 1], agent, tx, version);
    }
  }

  /** The beliefs but two. */
  function Others(a: seq<Belief>, p: nat, q: nat): seq<Belief>
    requires p < q < |a|
  {
    a[..p] + a[p + 1..q] + a[q + 1..]
  }

  /** The beliefs with two of them put in front. */
  function InFront(a: seq<Belief>, i: nat, j: nat): seq<Belief>
    requires i < |a| && j < |a| && i != j
  {
    [a[i], a[j]] + if i < j then Others(a, i, j) else Others(a, j, i)
  }

  lemma OthersCounted(a: seq<Belief>, p: nat, q: nat)
    requires p < q < |a|
    ensures multiset(a) == multiset{a[p], a[q]} + multiset(Others(a, p, q))
  {
    var l, m, r := a[..p], a[p + 1..q], a[q + 1..];
    assert a == l + [a[p]] + m + [a[q]] + r;
    assert multiset(a) == multiset(l) + multiset{a[p]} + multiset(m) + multiset{a[q]} + multiset(r);
  }

  lemma InFrontPermutes(a: seq<Belief>, i: nat, j: nat)
    requires i < |a| && j < |a| && i != j
    ensures multiset(InFront(a, i, j)) == multiset(a)
    ensures InFront(a, i, j)[0] == a[i] && InFront(a, i, j)[1] == a[j]
    ensures InFront(a, i, j)[2..] == InFront(a, j, i)[2..]
    ensures InFront(a, i, j) == [a[i], a[j]] + InFront(a, i, j)[2..]
  {
    var others := if i < j then Others(a, i, j) else Others(a, j, i);
    hide Others;
    OthersCounted(a, if i < j then i else j, if i < j then j else i);
    assert InFront(a, i, j)[2..] == others && InFront(a, j, i)[2..] == others;
  }

  lemma FirstTwo(cfg: RecoveryConfig, m: Memory, x: Belief, y: Belief, tx: string, version: int)
    requires Takes(cfg, m, x, tx, version) && Eligible(cfg, m, y, tx, version)
    requires x.beliefId == y.beliefId && x.agentId != y.agentId
    ensures BadCount(MemoryAfter(cfg, m, [x, y], tx, version), y.agentId) == BadCount(m, y.agentId) + 1
    ensures Judged(cfg, MemoryAfter(cfg, m, [x], tx, version), y, tx, version).reason == Some(DuplicateBelief)
  {
    assert [x, y][..1] == [x] && [x][..0] == [];
    assert MemoryAfter(cfg, m, [x], tx, version) == m.(seen := m.seen + {x.beliefId});
  }

  lemma FirstTaken(cfg: RecoveryConfig, m: Memory, x: Belief, y: Belief, tx: string, version: int)
    requires Takes(cfg, m, x, tx, version) && x.agentId != y.agentId
    ensures BadCount(MemoryAfter(cfg, m, [x, y], tx, version), x.agentId) == BadCount(m, x.agentId)
  {
    assert [x, y][..1] == [x] && [x][..0] == [];
    assert MemoryAfter(cfg, m, [x], tx, version) == m.(seen := m.seen + {x.beliefId});
  }

  /**
   For one belief per agent: the validator remembers the same for every order if and only if
   no two taken ids clash.
   */
  lemma MemoryOrderIff(cfg: RecoveryConfig, m: Memory, a: seq<Belief>, tx: string, version: int)
    requires DistinctAgents(a)
    ensures (forall b :: multiset(b) == multiset(a) ==>
                           MemoryAfter(cfg, m, a, tx, version) == MemoryAfter(cfg, m, b, tx, version))
            <==> TakenApart(cfg, m, a, tx, version)
  {
    hide MemoryAfter, AfterRound, Takes, DistinctAgents;
    if TakenApart(cfg, m, a, tx, version) {
      forall b | multiset(b) == multiset(a)
        ensures MemoryAfter(cfg, m, a, tx, version) == MemoryAfter(cfg, m, b, tx, version)
      {
        PermutedShape(cfg, m, a, b, tx, version);
        RoundMemory(cfg, m, a, tx, version);
        RoundMemory(cfg, m, b, tx, version);
        AfterRoundUnique(cfg, m, a, b, tx, version,
                         MemoryAfter(cfg, m, a, tx, version), MemoryAfter(cfg, m, b, tx, version));
      }
    } else {
      var i, j :| 0 <= i < |a| && 0 <= j < |a| && i != j && a[i].beliefId == a[j].beliefId
                  && Takes(cfg, m, a[i], tx, version) && Takes(cfg, m, a[j], tx, version);
      InFrontPermutes(a, i, j);
      InFrontPermutes(a, j, i);
      SwapChangesMemory(cfg, m, a, i, j, tx, version);
    }
  }

  lemma TakesEligible(cfg: RecoveryConfig, m: Memory, b: Belief, tx: string, version: int)
    requires Takes(cfg, m, b, tx, version)
    ensures Eligible(cfg, m, b, tx, version) && b.beliefId !in m.seen
  {
  }

  lemma OthersBehind(a: seq<Belief>, i: nat, j: nat)
    requires DistinctAgents(a) && i < |a| && j < |a| && i != j
    ensures a[i].agentId != a[j].agentId
    ensures forall b :: b in InFront(a, i, j)[2..] ==> b.agentId != a[i].agentId && b.agentId != a[j].agentId
  {
    var p, q := if i < j then i else j, if i < j then j else i;
    assert InFront(a, i, j)[2..] == Others(a, p, q);
    forall b | b in Others(a, p, q)
      ensures b.agentId != a[i].agentId && b.agentId != a[j].agentId
    {
      var k := OthersAmong(a, p, q, b);
    }
  }

  lemma OthersAmong(a: seq<Belief>, p: nat, q: nat, b: Belief) returns (k: nat)
    requires p < q < |a| && b in Others(a, p, q)
    ensures k < |a| && k != p && k != q && a[k] == b
  {
    var n :| 0 <= n < |Others(a, p, q)| && Others(a, p, q)[n] == b;
    k := if n < p then n else if n + 1 < q then n + 1 else n + 2;
  }

  lemma SwapChangesMemory(cfg: RecoveryConfig, m: Memory, a: seq<Belief>, i: nat, j: nat, tx: string, version: int)
    requires DistinctAgents(a) && i < |a| && j < |a| && i != j && a[i].beliefId == a[j].beliefId
    requires Takes(cfg, m, a[i], tx, version) && Takes(cfg, m, a[j], tx, version)
    ensures MemoryAfter(cfg, m, InFront(a, i, j), tx, version) != MemoryAfter(cfg, m, InFront(a, j, i), tx, version)
  {
    hide MemoryAfter, Takes, InFront, DistinctAgents, BadCount;
    var x, y := a[i], a[j];
    InFrontPermutes(a, i, j);
    InFrontPermutes(a, j, i);
    OthersBehind(a, i, j);
    TakesEligible(cfg, m, y, tx, version);
    var rest := InFront(a, i, j)[2..];
    MemoryConcat(cfg, m, [x, y], rest, tx, version);
    MemoryConcat(cfg, m, [y, x], rest, tx, version);
    FirstTwo(cfg, m, x, y, tx, version);
    FirstTaken(cfg, m, y, x, tx, version);
    CountUntouched(cfg, MemoryAfter(cfg, m, [x, y], tx, version), rest, y.agentId, tx, version);
    CountUntouched(cfg, MemoryAfter(cfg, m, [y, x], tx, version), rest, y.agentId, tx, version);
  }

  lemma {:induction false} VerdictAt(cfg: RecoveryConfig, m: Memory, a: seq<Belief>, i: nat, tx: string, version: int)
    requires i < |a|
    ensures Verdicts(cfg, m, a, tx, version)[i] ==
            Judged(cfg, MemoryAfter(cfg, m, a[..i], tx, version), a[i], tx, version)
  {
    hide Judged, MemoryAfter;
    if i < |a| - 1 {
      VerdictAt(cfg, m, a[..|a| - 1], i, tx, version);
      assert a[..|a| - 1][..i] == a[..i];
    }
  }

  /** Putting the taken one of two beliefs with one id first or second changes the reason given for the other. */
  lemma SwapChangesReason(cfg: RecoveryConfig, m: Memory, a: seq<Belief>, i: nat, j: nat, tx: string, version: int)
    requires DistinctAgents(a) && i < |a| && j < |a| && i != j && a[i].beliefId == a[j].beliefId
    requires Takes(cfg, m, a[i], tx, version) && Eligible(cfg, m, a[j], tx, version)
    ensures Verdicts(cfg, m, InFront(a, i, j), tx, version)[1].reason == Some(DuplicateBelief)
    ensures Verdicts(cfg, m, InFront(a, j, i), tx, version)[0].reason != Some(DuplicateBelief)
  {
    hide InFront, Verdicts, DistinctAgents, Takes;
    InFrontPermutes(a, i, j);
    InFrontPermutes(a, j, i);
    OthersBehind(a, i, j);
    TakesEligible(cfg, m, a[i], tx, version);
    VerdictAt(cfg, m, InFront(a, i, j), 1, tx, version);
    VerdictAt(cfg, m, InFront(a, j, i), 0, tx, version);
    assert InFront(a, i, j)[..1] == [a[i]] && InFront(a, j, i)[..0] == [];
    FirstTwo(cfg, m, a[i], a[j], tx, version);
  }

  lemma ResultsDiffer(a: seq<Belief>, b: seq<Belief>, va: seq<Verdict>, vb: seq<Verdict>, d: Recommendation,
                      e: Recommendation)
    requires |va| == |a| && |vb| == |b| && |a| >= 2 && |b| >= 1 && DistinctAgents(b) && a[1] == b[0]
    requires va[1].reason == Some(DuplicateBelief) && vb[0].reason != Some(DuplicateBelief)
    ensures multiset(ResultsOf(a, va, d)) != multiset(ResultsOf(b, vb, e))
  {
    var r, s := ResultsOf(a, va, d), ResultsOf(b, vb, e);
    forall k | 0 <= k < |s|
      ensures s[k] != r[1]
    {
      assert s[k].agentId == b[k].agentId && r[1].agentId == b[0].agentId;
      assert s[k].verdict.reason == vb[k].reason && r[1].verdict.reason == va[1].reason;
    }
    assert r[1] in multiset(r) && r[1] !in multiset(s);
  }

  /** With votes of the safety order alone, aggregation always has a result. */
  lemma AlwaysDecides(cfg: RecoveryConfig, m: Memory, a: seq<Belief>, tx: string, version: int)
    requires forall x :: x in a ==> x.recommendation in SAFETY
    ensures Aggregated(cfg, m, a, tx, version).Some?
  {
    hide Verdicts, BestOf, ValidOnes;
    ValidAmong(a, Verdicts(cfg, m, a, tx, version));
  }

  lemma {:induction false} ValidAmong(beliefs: seq<Belief>, verdicts: seq<Verdict>)
    requires |beliefs| == |verdicts|
    ensures forall b :: b in ValidOnes(beliefs, verdicts) ==> b in beliefs
  {
    if |beliefs| == 0 {
    } else {
      ValidAmong(beliefs[..|beliefs| - 1], verdicts[..|beliefs| - 1]);
    }
  }

  /**
   For one belief per agent, and votes that cannot end in an error: the outcome, reasons
   included, is the same for every order if and only if the round is undisturbed.
   */
  lemma OutcomeOrderIff(cfg: RecoveryConfig, m: Memory, a: seq<Belief>, tx: string, version: int)
    requires DistinctAgents(a) && forall x :: x in a ==> x.recommendation in SAFETY
    ensures (forall b :: multiset(b) == multiset(a) ==>
                           SameOutcome(Aggregated(cfg, m, a, tx, version), Aggregated(cfg, m, b, tx, version)))
            <==> Undisturbed(cfg, m, a, tx, version)
  {
    hide MemoryAfter, Aggregated, Takes, Eligible, DistinctAgents, SameOutcome;
    if Undisturbed(cfg, m, a, tx, version) {
      forall b | multiset(b) == multiset(a)
        ensures SameOutcome(Aggregated(cfg, m, a, tx, version), Aggregated(cfg, m, b, tx, version))
      {
        OrderOfArrival(cfg, m, a, b, tx, version);
      }
    } else {
      var i, j :| 0 <= i < |a| && 0 <= j < |a| && i != j && a[i].beliefId == a[j].beliefId
                  && Takes(cfg, m, a[i], tx, version) && Eligible(cfg, m, a[j], tx, version);
      InFrontPermutes(a, i, j);
      InFrontPermutes(a, j, i);
      SwapChangesOutcome(cfg, m, a, i, j, tx, version);
    }
  }

  lemma SwapChangesOutcome(cfg: RecoveryConfig, m: Memory, a: seq<Belief>, i: nat, j: nat, tx: string, version: int)
    requires DistinctAgents(a) && forall x :: x in a ==> x.recommendation in SAFETY
    requires i < |a| && j < |a| && i != j && a[i].beliefId == a[j].beliefId
    requires Takes(cfg, m, a[i], tx, version) && Eligible(cfg, m, a[j], tx, version)
    ensures var o, p, q := Aggregated(cfg, m, a, tx, version), Aggregated(cfg, m, InFront(a, i, j), tx, version),
                           Aggregated(cfg, m, InFront(a, j, i), tx, version);
            !(SameOutcome(o, p) && SameOutcome(o, q))
  {
    hide Takes, Eligible, DistinctAgents, Verdicts, ValidOnes, Decided, InFront, ResultsOf, TakenApart, Undisturbed;
    var x, y := InFront(a, i, j), InFront(a, j, i);
    InFrontPermutes(a, i, j);
    InFrontPermutes(a, j, i);
    PermutedShape(cfg, m, a, x, tx, version);
    PermutedShape(cfg, m, a, y, tx, version);
    AlwaysDecides(cfg, m, x, tx, version);
    AlwaysDecides(cfg, m, y, tx, version);
    SwapChangesReason(cfg, m, a, i, j, tx, version);
    var vx, vy := Verdicts(cfg, m, x, tx, version), Verdicts(cfg, m, y, tx, version);
    ResultsDiffer(x, y, vx, vy, Decided(cfg, ValidOnes(x, vx)).value.action,
                  Decided(cfg, ValidOnes(y, vy)).value.action);
  }

  /** Where a shared id disturbs a round, the order may even decide what is done. */
  lemma SharedIdBreaksOrder()
    ensures exists cfg, m, x, y, tx, version ::
              !SameOutcome(Aggregated(cfg, m, [x, y], tx, version), Aggregated(cfg, m, [y, x], tx, version))
  {
    hide Aggregated;
    var cfg := RecoveryConfig(map["p" := 1.0, "q" := 1.0], 0.67, 1, 3, 0.0, 0.0, {}, {}, false, 0.0);
    var m := Memory({}, map[], {});
    var x := Belief("id", "p", "t", 1, RetryPayment, 1.0, true, "now");
    var y := Belief("id", "q", "t", 1, RetryCapture, 1.0, true, "now");
    FirstOfTwoDecides(cfg, m, x, y, "t", 1);
    FirstOfTwoDecides(cfg, m, y, x, "t", 1);
    assert !SameOutcome(Aggregated(cfg, m, [x, y], "t", 1), Aggregated(cfg, m, [y, x], "t", 1));
  }

  /** A second belief under an id that was just used is not counted. */
  lemma OnlyFirstValid(cfg: RecoveryConfig, m: Memory, x: Belief, y: Belief, tx: string, version: int)
    requires Takes(cfg, m, x, tx, version) && x.beliefId == y.beliefId
    ensures ValidOnes([x, y], Verdicts(cfg, m, [x, y], tx, version)) == [x]
  {
    var v := Verdicts(cfg, m, [x, y], tx, version);
    assert [x, y][..1] == [x] && [x][..0] == [];
    assert Verdicts(cfg, m, [x], tx, version) == [Judged(cfg, m, x, tx, version)];
    assert MemoryAfter(cfg, m, [x], tx, version) == m.(seen := m.seen + {x.beliefId});
    assert !Takes(cfg, MemoryAfter(cfg, m, [x], tx, version), y, tx, version);
    assert v[..1] == [v[0]] && v[..1][..0] == [];
    assert ValidOnes([x], v[..1]) == [x];
  }

  lemma FirstOfTwoDecides(cfg: RecoveryConfig, m: Memory, x: Belief, y: Belief, tx: string, version: int)
    requires Takes(cfg, m, x, tx, version) && x.beliefId == y.beliefId && cfg.minValidAgents == 1
    requires x.agentId in cfg.agentWeights && cfg.agentWeights[x.agentId] == 1.0 && x.confidence == 1.0
    requires cfg.threshold <= 1.0 && x.recommendation in SAFETY && x.recommendation != DoNothing
    ensures var r := Aggregated(cfg, m, [x, y], tx, version); r.Some? && r.value.decision == x.recommendation
  {
    hide Verdicts, ValidOnes, Takes, Ratio, BestOf;
    OnlyFirstValid(cfg, m, x, y, tx, version);
    assert Voted([x]) == {x.recommendation} by {
      assert x in [x];
    }
    AloneRatio(cfg, x);
    BestOfWins(cfg, [x], |SAFETY|);
    assert SAFETY[Rank(x.recommendation)] == x.recommendation;
  }

  lemma AloneRatio(cfg: RecoveryConfig, x: Belief)
    requires x.agentId in cfg.agentWeights && cfg.agentWeights[x.agentId] == 1.0 && x.confidence == 1.0
    ensures Ratio(cfg, [x], x.recommendation) == 1.0
  {
    assert [x][..0] == [];
    assert SumBy(Weighing(cfg), [x]) == SumBy(Weighing(cfg), []) + 1.0;
    assert SumBy(Backing(cfg, x.recommendation), [x]) == SumBy(Backing(cfg, x.recommendation), []) + 1.0;
  }
}
